/** Events as message bodies (worker/src/schema.py, to_json_bytes and from_json_bytes). */
module Wire {
  import opened Common
  import opened Json
  import opened Schema
  import Utf8

  // Writing

  function OptionalText(s: Option<string>): Json {
    if s.Some? then Text(s.value) else Null
  }

  function EncodeSource(s: Source): Json {
    Object([Member("provider", Text(s.provider)), Member("path", Text(s.path))])
  }

  function EncodeFile(f: FileMeta): Json {
    Object([
      Member("name", Text(f.name)),
      Member("sizeBytes", Number(f.sizeBytes)),
      Member("checksumSha256", Text(f.checksumSha256)),
      Member("contentType", OptionalText(f.contentType))])
  }

  function EncodeDestination(d: Destination): Json {
    Object([
      Member("provider", Text(d.provider)),
      Member("bucket", Text(d.bucket)),
      Member("key", Text(d.key)),
      Member("region", OptionalText(d.region))])
  }

  function EncodeDestinations(ds: seq<Destination>): seq<Json> {
    seq(|ds|, i requires 0 <= i < |ds| => EncodeDestination(ds[i]))
  }

  function EncodeRetry(r: Option<RetryInfo>): Json {
    if r.None? then Null
    else Object([
      Member("attempt", Number(r.value.attempt)),
      Member("maxAttempts", Number(r.value.maxAttempts)),
      Member("lastError", OptionalText(r.value.lastError))])
  }

  function EncodeEvent(e: TransferEvent): Json {
    Object([
      Member("schemaVersion", Text(e.schemaVersion)),
      Member("eventType", Text(e.eventType)),
      Member("eventId", Text(e.eventId)),
      Member("correlationId", Text(e.correlationId)),
      Member("idempotencyKey", Text(e.idempotencyKey)),
      Member("occurredAt", Text(e.occurredAt)),
      Member("source", EncodeSource(e.source)),
      Member("file", EncodeFile(e.file)),
      Member("destinations", Array(EncodeDestinations(e.destinations))),
      Member("retry", EncodeRetry(e.retry))])
  }

  /** model_dump_json().encode("utf-8") */
  function ToBytes(e: TransferEvent): Content {
    Utf8.Encode(Print(EncodeEvent(e)))
  }

  // Reading

  /** The value of a member; when a name is repeated the last one counts. */
  function Get(ms: seq<Member>, name: string): Option<Json> {
    if ms == [] then None
    else if ms[|ms| - 1].name == name then Some(ms[|ms| - 1].value)
    else Get(ms[..|ms| - 1], name)
  }

  /** extra="forbid" */
  predicate Only(ms: seq<Member>, names: seq<string>) {
    forall m :: m in ms ==> m.name in names
  }

  function GetText(ms: seq<Member>, name: string): Option<string> {
    var j :- Get(ms, name);
    if j.Text? then Some(j.text) else None
  }

  function GetNumber(ms: seq<Member>, name: string): Option<int> {
    var j :- Get(ms, name);
    if j.Number? then Some(j.n) else None
  }

  /** A field of type `str | None = None`. */
  function GetOptionalText(ms: seq<Member>, name: string): Option<Option<string>> {
    match Get(ms, name)
    case None => Some(None)
    case Some(Null) => Some(None)
    case Some(Text(s)) => Some(Some(s))
    case _ => None
  }

  function DecodeSource(j: Json): Option<Source> {
    if !j.Object? || !Only(j.members, ["provider", "path"]) then None
    else
      var provider :- GetText(j.members, "provider");
      var path :- GetText(j.members, "path");
      Some(Source(provider, path))
  }

  function DecodeFile(j: Json): Option<FileMeta> {
    if !j.Object? || !Only(j.members, ["name", "sizeBytes", "checksumSha256", "contentType"]) then None
    else
      var name :- GetText(j.members, "name");
      var sizeBytes :- GetNumber(j.members, "sizeBytes");
      var checksum :- GetText(j.members, "checksumSha256");
      var contentType :- GetOptionalText(j.members, "contentType");
      Some(FileMeta(name, sizeBytes, checksum, contentType))
  }

  function DecodeDestination(j: Json): Option<Destination> {
    if !j.Object? || !Only(j.members, ["provider", "bucket", "key", "region"]) then None
    else
      var provider :- GetText(j.members, "provider");
      var bucket :- GetText(j.members, "bucket");
      var key :- GetText(j.members, "key");
      var region :- GetOptionalText(j.members, "region");
      Some(Destination(provider, bucket, key, region))
  }

  function DecodeDestinations(items: seq<Json>): Option<seq<Destination>> {
    if items == [] then Some([])
    else
      var d :- DecodeDestination(items[0]);
      var ds :- DecodeDestinations(items[1..]);
      Some([d] + ds)
  }

  /** A field of type `RetryInfo | None = None`. */
  function DecodeRetry(j: Option<Json>): Option<Option<RetryInfo>> {
    if j.None? || j.value.Null? then Some(None)
    else if !j.value.Object? || !Only(j.value.members, ["attempt", "maxAttempts", "lastError"]) then None
    else
      var attempt :- GetNumber(j.value.members, "attempt");
      var maxAttempts :- GetNumber(j.value.members, "maxAttempts");
      var lastError :- GetOptionalText(j.value.members, "lastError");
      Some(Some(RetryInfo(attempt, maxAttempts, lastError)))
  }

  const EVENT_FIELDS: seq<string> := [
    "schemaVersion", "eventType", "eventId", "correlationId", "idempotencyKey", "occurredAt", "source", "file",
    "destinations", "retry"]

  function DecodeEvent(j: Json): Option<TransferEvent> {
    if !j.Object? || !Only(j.members, EVENT_FIELDS) then None
    else
      var ms := j.members;
      var schemaVersion :- GetText(ms, "schemaVersion");
      var eventType :- GetText(ms, "eventType");
      var eventId :- GetText(ms, "eventId");
      var correlationId :- GetText(ms, "correlationId");
      var idempotencyKey :- GetText(ms, "idempotencyKey");
      var occurredAt :- GetText(ms, "occurredAt");
      var sourceJson :- Get(ms, "source");
      var source :- DecodeSource(sourceJson);
      var fileJson :- Get(ms, "file");
      var file :- DecodeFile(fileJson);
      var destinationsJson :- Get(ms, "destinations");
      if !destinationsJson.Array? then None
      else
        var destinations :- DecodeDestinations(destinationsJson.items);
        var retry :- DecodeRetry(Get(ms, "retry"));
        Some(TransferEvent(schemaVersion, eventType, eventId, correlationId, idempotencyKey, occurredAt,
                           source, file, destinations, retry))
  }

  /** from_json_bytes: None where it raises. */
  function FromBytes(v: Validators, body: Content): (r: Option<TransferEvent>)
    ensures r.Some? ==> WellFormed(v, r.value)
  {
    var text :- Utf8.Decode(body);
    var json :- Parse(text);
    var event :- DecodeEvent(json);
    if WellFormed(v, event) then Some(event) else None
  }

  // Round trip

  ghost predicate Distinct(ms: seq<Member>) {
    forall i, j :: 0 <= i < j < |ms| ==> ms[i].name != ms[j].name
  }

  lemma {:induction false} GetAt(ms: seq<Member>, i: nat)
    requires i < |ms| && Distinct(ms)
    ensures Get(ms, ms[i].name) == Some(ms[i].value)
  {
    if i < |ms| - 1 {
      GetAt(ms[..|ms| - 1], i);
    }
  }

  lemma SourceRoundTrip(s: Source)
    ensures DecodeSource(EncodeSource(s)) == Some(s)
  {
    var ms := EncodeSource(s).members;
    assert Distinct(ms);
    GetAt(ms, 0);
    GetAt(ms, 1);
  }

  lemma FileRoundTrip(f: FileMeta)
    ensures DecodeFile(EncodeFile(f)) == Some(f)
  {
    var ms := EncodeFile(f).members;
    assert Distinct(ms);
    GetAt(ms, 0);
    GetAt(ms, 1);
    GetAt(ms, 2);
    GetAt(ms, 3);
  }

  lemma DestinationRoundTrip(d: Destination)
    ensures DecodeDestination(EncodeDestination(d)) == Some(d)
  {
    var ms := EncodeDestination(d).members;
    assert Distinct(ms);
    GetAt(ms, 0);
    GetAt(ms, 1);
    GetAt(ms, 2);
    GetAt(ms, 3);
  }

  lemma {:induction false} DestinationsRoundTrip(ds: seq<Destination>)
    ensures DecodeDestinations(EncodeDestinations(ds)) == Some(ds)
  {
    if ds != [] {
      DestinationRoundTrip(ds[0]);
      DestinationsRoundTrip(ds[1..]);
      assert EncodeDestinations(ds)[1..] == EncodeDestinations(ds[1..]);
      assert ds == [ds[0]] + ds[1..];
    }
  }

  lemma RetryRoundTrip(r: Option<RetryInfo>)
    ensures DecodeRetry(Some(EncodeRetry(r))) == Some(r)
  {
    if r.Some? {
      var ms := EncodeRetry(r).members;
      assert Distinct(ms);
      GetAt(ms, 0);
      GetAt(ms, 1);
      GetAt(ms, 2);
    }
  }

  lemma EventMembersDistinct(e: TransferEvent)
    ensures EncodeEvent(e).Object? && Distinct(EncodeEvent(e).members) && Only(EncodeEvent(e).members, EVENT_FIELDS)
  {
    hide EncodeSource, EncodeFile, EncodeDestinations, EncodeRetry;
    var ms := EncodeEvent(e).members;
    assert forall i :: 0 <= i < |ms| ==> ms[i].name == EVENT_FIELDS[i];
  }

  lemma EventRoundTrip(e: TransferEvent)
    ensures DecodeEvent(EncodeEvent(e)) == Some(e)
  {
    hide EncodeSource, EncodeFile, EncodeDestinations, EncodeRetry, DecodeSource, DecodeFile, DecodeDestinations,
      DecodeRetry, Distinct, Only, Get;
    EventMembersDistinct(e);
    var ms := EncodeEvent(e).members;
    GetAt(ms, 0);
    GetAt(ms, 1);
    GetAt(ms, 2);
    GetAt(ms, 3);
    GetAt(ms, 4);
    GetAt(ms, 5);
    GetAt(ms, 6);
    GetAt(ms, 7);
    GetAt(ms, 8);
    GetAt(ms, 9);
    SourceRoundTrip(e.source);
    FileRoundTrip(e.file);
    DestinationsRoundTrip(e.destinations);
    RetryRoundTrip(e.retry);
  }

  /** Every valid event survives the wire unchanged, whatever its strings contain. */
  lemma WireRoundTrip(v: Validators, e: TransferEvent)
    requires WellFormed(v, e)
    ensures FromBytes(v, ToBytes(e)) == Some(e)
  {
    hide WellFormed, DecodeEvent, EncodeEvent, Print, Parse;
    EventRoundTrip(e);
    ParsePrint(EncodeEvent(e));
    Utf8.DecodeEncode(Print(EncodeEvent(e)));
  }

  /** The same with white space between the tokens, as another publisher may write it. */
  lemma SpacedRoundTrip(v: Validators, e: TransferEvent, gap: string)
    requires WellFormed(v, e) && AllSpace(gap)
    ensures FromBytes(v, Utf8.Encode(gap + Write(EncodeEvent(e), gap) + gap)) == Some(e)
  {
    hide WellFormed, DecodeEvent, EncodeEvent, Write, Parse, AllSpace;
    EventRoundTrip(e);
    ParseWrite(EncodeEvent(e), gap);
    Utf8.DecodeEncode(gap + Write(EncodeEvent(e), gap) + gap);
  }

  // What is read, without the reader

  /** Member number `i` is the last of that name. */
  ghost predicate LastNamed(ms: seq<Member>, name: string, i: nat) {
    i < |ms| && ms[i].name == name && forall j :: i < j < |ms| ==> ms[j].name != name
  }

  ghost predicate HasText(ms: seq<Member>, name: string, text: string) {
    exists i: nat :: LastNamed(ms, name, i) && ms[i].value == Text(text)
  }

  ghost predicate HasNumber(ms: seq<Member>, name: string, n: int) {
    exists i: nat :: LastNamed(ms, name, i) && ms[i].value == Number(n)
  }

  /** Missing and null both stand for None. */
  ghost predicate MayHaveText(ms: seq<Member>, name: string, text: Option<string>) {
    if exists m :: m in ms && m.name == name
    then exists i: nat :: LastNamed(ms, name, i) && ms[i].value == (if text.Some? then Text(text.value) else Null)
    else text == None
  }

  ghost predicate SpellsSource(j: Json, s: Source) {
    && j.Object?
    && (forall m :: m in j.members ==> m.name == "provider" || m.name == "path")
    && HasText(j.members, "provider", s.provider)
    && HasText(j.members, "path", s.path)
  }

  ghost predicate SpellsFile(j: Json, f: FileMeta) {
    && j.Object?
    && (forall m :: m in j.members ==>
          m.name == "name" || m.name == "sizeBytes" || m.name == "checksumSha256" || m.name == "contentType")
    && HasText(j.members, "name", f.name)
    && HasNumber(j.members, "sizeBytes", f.sizeBytes)
    && HasText(j.members, "checksumSha256", f.checksumSha256)
    && MayHaveText(j.members, "contentType", f.contentType)
  }

  ghost predicate SpellsDestination(j: Json, d: Destination) {
    && j.Object?
    && (forall m :: m in j.members ==>
          m.name == "provider" || m.name == "bucket" || m.name == "key" || m.name == "region")
    && HasText(j.members, "provider", d.provider)
    && HasText(j.members, "bucket", d.bucket)
    && HasText(j.members, "key", d.key)
    && MayHaveText(j.members, "region", d.region)
  }

  ghost predicate SpellsRetry(j: Json, r: RetryInfo) {
    && j.Object?
    && (forall m :: m in j.members ==> m.name == "attempt" || m.name == "maxAttempts" || m.name == "lastError")
    && HasNumber(j.members, "attempt", r.attempt)
    && HasNumber(j.members, "maxAttempts", r.maxAttempts)
    && MayHaveText(j.members, "lastError", r.lastError)
  }

  ghost predicate MayHaveRetry(ms: seq<Member>, r: Option<RetryInfo>) {
    if exists m :: m in ms && m.name == "retry"
    then exists i: nat :: LastNamed(ms, "retry", i)
                     && if r.Some? then SpellsRetry(ms[i].value, r.value) else ms[i].value == Null
    else r == None
  }

  ghost predicate SpellsDestinations(j: Json, ds: seq<Destination>) {
    j.Array? && |j.items| == |ds| && forall i :: 0 <= i < |ds| ==> SpellsDestination(j.items[i], ds[i])
  }

  ghost predicate HasSource(ms: seq<Member>, s: Source) {
    exists i: nat :: LastNamed(ms, "source", i) && SpellsSource(ms[i].value, s)
  }

  ghost predicate HasFile(ms: seq<Member>, f: FileMeta) {
    exists i: nat :: LastNamed(ms, "file", i) && SpellsFile(ms[i].value, f)
  }

  ghost predicate HasDestinations(ms: seq<Member>, ds: seq<Destination>) {
    exists i: nat :: LastNamed(ms, "destinations", i) && SpellsDestinations(ms[i].value, ds)
  }

  /** The JSON value spells the event: it has no other members than the ten, and the last member of each name says
      what the field is. */
  ghost predicate SpellsEvent(j: Json, e: TransferEvent) {
    && j.Object?
    && (forall m :: m in j.members ==>
          || m.name == "schemaVersion" || m.name == "eventType" || m.name == "eventId" || m.name == "correlationId"
          || m.name == "idempotencyKey" || m.name == "occurredAt" || m.name == "source" || m.name == "file"
          || m.name == "destinations" || m.name == "retry")
    && HasText(j.members, "schemaVersion", e.schemaVersion)
    && HasText(j.members, "eventType", e.eventType)
    && HasText(j.members, "eventId", e.eventId)
    && HasText(j.members, "correlationId", e.correlationId)
    && HasText(j.members, "idempotencyKey", e.idempotencyKey)
    && HasText(j.members, "occurredAt", e.occurredAt)
    && HasSource(j.members, e.source)
    && HasFile(j.members, e.file)
    && HasDestinations(j.members, e.destinations)
    && MayHaveRetry(j.members, e.retry)
  }

  lemma {:induction false} GetLast(ms: seq<Member>, name: string, i: nat)
    requires LastNamed(ms, name, i)
    ensures Get(ms, name) == Some(ms[i].value)
  {
    var n := |ms| - 1;
    if i < n {
      assert LastNamed(ms[..n], name, i);
      GetLast(ms[..n], name, i);
    }
  }

  lemma {:induction false} FindLast(ms: seq<Member>, name: string) returns (i: nat)
    requires Get(ms, name).Some?
    ensures LastNamed(ms, name, i) && Get(ms, name) == Some(ms[i].value) && ms[i] in ms
  {
    var n := |ms| - 1;
    if ms[n].name == name {
      i := n;
    } else {
      i := FindLast(ms[..n], name);
    }
  }

  lemma {:induction false} NoneNamed(ms: seq<Member>, name: string)
    ensures Get(ms, name).None? <==> !exists m :: m in ms && m.name == name
  {
    if ms != [] {
      var n := |ms| - 1;
      NoneNamed(ms[..n], name);
      assert ms == ms[..n] + [ms[n]];
      assert ms[n] in ms;
    }
  }

  lemma TextExactly(ms: seq<Member>, name: string, text: string)
    ensures GetText(ms, name) == Some(text) <==> HasText(ms, name, text)
  {
    hide Get;
    if GetText(ms, name) == Some(text) {
      var i := FindLast(ms, name);
    }
    if HasText(ms, name, text) {
      var i: nat :| LastNamed(ms, name, i) && ms[i].value == Text(text);
      GetLast(ms, name, i);
    }
  }

  lemma NumberExactly(ms: seq<Member>, name: string, n: int)
    ensures GetNumber(ms, name) == Some(n) <==> HasNumber(ms, name, n)
  {
    hide Get;
    if GetNumber(ms, name) == Some(n) {
      var i := FindLast(ms, name);
    }
    if HasNumber(ms, name, n) {
      var i: nat :| LastNamed(ms, name, i) && ms[i].value == Number(n);
      GetLast(ms, name, i);
    }
  }

  lemma OptionalExactly(ms: seq<Member>, name: string, text: Option<string>)
    ensures GetOptionalText(ms, name) == Some(text) <==> MayHaveText(ms, name, text)
  {
    hide Get;
    NoneNamed(ms, name);
    if Get(ms, name).Some? {
      var i := FindLast(ms, name);
      if MayHaveText(ms, name, text) {
        var k: nat :| LastNamed(ms, name, k) && ms[k].value == if text.Some? then Text(text.value) else Null;
        GetLast(ms, name, k);
      }
    }
  }

  lemma SourceExactly(j: Json, s: Source)
    ensures DecodeSource(j) == Some(s) <==> SpellsSource(j, s)
  {
    hide HasText, GetText;
    if j.Object? {
      TextExactly(j.members, "provider", s.provider);
      TextExactly(j.members, "path", s.path);
    }
  }

  lemma FileExactly(j: Json, f: FileMeta)
    ensures DecodeFile(j) == Some(f) <==> SpellsFile(j, f)
  {
    hide HasText, GetText, HasNumber, GetNumber, MayHaveText, GetOptionalText;
    if j.Object? {
      TextExactly(j.members, "name", f.name);
      NumberExactly(j.members, "sizeBytes", f.sizeBytes);
      TextExactly(j.members, "checksumSha256", f.checksumSha256);
      OptionalExactly(j.members, "contentType", f.contentType);
    }
  }

  lemma DestinationExactly(j: Json, d: Destination)
    ensures DecodeDestination(j) == Some(d) <==> SpellsDestination(j, d)
  {
    hide HasText, GetText, MayHaveText, GetOptionalText;
    if j.Object? {
      TextExactly(j.members, "provider", d.provider);
      TextExactly(j.members, "bucket", d.bucket);
      TextExactly(j.members, "key", d.key);
      OptionalExactly(j.members, "region", d.region);
    }
  }

  lemma {:induction false} DestinationsExactly(items: seq<Json>, ds: seq<Destination>)
    ensures DecodeDestinations(items) == Some(ds) <==> SpellsDestinations(Array(items), ds)
    decreases |items|
  {
    hide DecodeDestination, SpellsDestination;
    if items != [] && ds != [] {
      DestinationExactly(items[0], ds[0]);
      DestinationsExactly(items[1..], ds[1..]);
      assert ds == [ds[0]] + ds[1..];
      assert SpellsDestinations(Array(items), ds) <==>
             SpellsDestination(items[0], ds[0]) && SpellsDestinations(Array(items[1..]), ds[1..]) by {
        assert forall i :: 0 < i < |items| ==> items[i] == items[1..][i - 1];
        assert forall i :: 0 < i < |ds| ==> ds[i] == ds[1..][i - 1];
      }
    }
  }

  lemma RetryExactly(ms: seq<Member>, r: Option<RetryInfo>)
    ensures DecodeRetry(Get(ms, "retry")) == Some(r) <==> MayHaveRetry(ms, r)
  {
    hide Get, DecodeRetry, SpellsRetry;
    NoneNamed(ms, "retry");
    RetryValueExactly(Get(ms, "retry"), r);
    if Get(ms, "retry").Some? {
      var i := FindLast(ms, "retry");
      if MayHaveRetry(ms, r) {
        var k: nat :| LastNamed(ms, "retry", k)
                      && if r.Some? then SpellsRetry(ms[k].value, r.value) else ms[k].value == Null;
        GetLast(ms, "retry", k);
      }
    }
  }

  lemma RetryValueExactly(j: Option<Json>, r: Option<RetryInfo>)
    ensures DecodeRetry(j) == Some(r) <==>
            if j.None? then r == None else if r.Some? then SpellsRetry(j.value, r.value) else j.value == Null
  {
    hide HasNumber, GetNumber, MayHaveText, GetOptionalText;
    if j.Some? && j.value.Object? && r.Some? {
      NumberExactly(j.value.members, "attempt", r.value.attempt);
      NumberExactly(j.value.members, "maxAttempts", r.value.maxAttempts);
      OptionalExactly(j.value.members, "lastError", r.value.lastError);
    }
  }

  lemma SourceMemberExactly(ms: seq<Member>, s: Source)
    ensures Get(ms, "source").Some? && DecodeSource(Get(ms, "source").value) == Some(s) <==> HasSource(ms, s)
  {
    hide Get, DecodeSource, SpellsSource;
    if Get(ms, "source").Some? {
      var i := FindLast(ms, "source");
      SourceExactly(ms[i].value, s);
    }
    if HasSource(ms, s) {
      var i: nat :| LastNamed(ms, "source", i) && SpellsSource(ms[i].value, s);
      GetLast(ms, "source", i);
      SourceExactly(ms[i].value, s);
    }
  }

  lemma FileMemberExactly(ms: seq<Member>, f: FileMeta)
    ensures Get(ms, "file").Some? && DecodeFile(Get(ms, "file").value) == Some(f) <==> HasFile(ms, f)
  {
    hide Get, DecodeFile, SpellsFile;
    if Get(ms, "file").Some? {
      var i := FindLast(ms, "file");
      FileExactly(ms[i].value, f);
    }
    if HasFile(ms, f) {
      var i: nat :| LastNamed(ms, "file", i) && SpellsFile(ms[i].value, f);
      GetLast(ms, "file", i);
      FileExactly(ms[i].value, f);
    }
  }

  lemma DestinationsMemberExactly(ms: seq<Member>, ds: seq<Destination>)
    ensures Get(ms, "destinations").Some? && Get(ms, "destinations").value.Array?
            && DecodeDestinations(Get(ms, "destinations").value.items) == Some(ds)
            <==> HasDestinations(ms, ds)
  {
    hide Get, DecodeDestinations, SpellsDestination;
    if Get(ms, "destinations").Some? {
      var i := FindLast(ms, "destinations");
      if ms[i].value.Array? {
        DestinationsExactly(ms[i].value.items, ds);
      }
    }
    if HasDestinations(ms, ds) {
      var i: nat :| LastNamed(ms, "destinations", i) && SpellsDestinations(ms[i].value, ds);
      GetLast(ms, "destinations", i);
      DestinationsExactly(ms[i].value.items, ds);
    }
  }

  /** Reading a JSON value yields an event exactly if the value spells that event. */
  lemma EventExactly(j: Json, e: TransferEvent)
    ensures DecodeEvent(j) == Some(e) <==> SpellsEvent(j, e)
  {
    hide HasText, GetText, HasSource, HasFile, HasDestinations, MayHaveRetry, Get, DecodeSource, DecodeFile,
      DecodeDestinations, DecodeRetry;
    if j.Object? {
      var ms := j.members;
      TextExactly(ms, "schemaVersion", e.schemaVersion);
      TextExactly(ms, "eventType", e.eventType);
      TextExactly(ms, "eventId", e.eventId);
      TextExactly(ms, "correlationId", e.correlationId);
      TextExactly(ms, "idempotencyKey", e.idempotencyKey);
      TextExactly(ms, "occurredAt", e.occurredAt);
      SourceMemberExactly(ms, e.source);
      FileMemberExactly(ms, e.file);
      DestinationsMemberExactly(ms, e.destinations);
      RetryExactly(ms, e.retry);
    }
  }

  /** from_json_bytes returns an event exactly if the bytes are UTF-8 of a JSON text that spells it and it passes the
      validators; there is no other event it could return. */
  lemma FromBytesExactly(v: Validators, body: Content, e: TransferEvent)
    ensures FromBytes(v, body) == Some(e) <==>
            && WellFormed(v, e)
            && exists text: string, j: Json :: Utf8.Encode(text) == body && Parse(text) == Some(j) && SpellsEvent(j, e)
  {
    hide WellFormed, DecodeEvent, SpellsEvent, Parse;
    if FromBytes(v, body) == Some(e) {
      Utf8.EncodeDecode(body);
      var text := Utf8.Decode(body).value;
      EventExactly(Parse(text).value, e);
      assert Utf8.Encode(text) == body && Parse(text) == Some(Parse(text).value);
    }
    if text: string, j: Json :| Utf8.Encode(text) == body && Parse(text) == Some(j) && SpellsEvent(j, e) {
      Utf8.DecodeEncode(text);
      EventExactly(j, e);
    }
  }

  /** A body with a member that is none of the ten is refused, whatever else it holds. */
  lemma UnknownFieldRefused(v: Validators, ms: seq<Member>, extra: Member)
    requires extra in ms
    requires extra.name !in {"schemaVersion", "eventType", "eventId", "correlationId", "idempotencyKey", "occurredAt",
                             "source", "file", "destinations", "retry"}
    ensures FromBytes(v, Utf8.Encode(Print(Object(ms)))) == None
  {
    hide WellFormed, Print, Parse;
    ParsePrint(Object(ms));
    Utf8.DecodeEncode(Print(Object(ms)));
  }
}

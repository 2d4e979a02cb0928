/**
 HTTP video ingest: a receipt per control request and a Drive folder, which together should behave like a write-once map
 (apps-script/src/04_DriveBackup.gs). Text is a sequence of 16-bit code units, as JavaScript strings are.
 */
module Ingest {
  import opened Prelude

  type Text = seq<bv16>

  const MAX_HTTP_INGEST_BYTES: nat := 8 * 1024 * 1024

  // ---------------------------------------------------------------- comparison and validation

  /** `constantTimeEquals_`: fold every difference into one accumulator, so that the time taken tells nothing. */
  method ConstantTimeEquals(left: Text, right: Text) returns (equal: bool)
    ensures equal <==> left == right
  {
    if |left| != |right| {
      return false;
    }
    var result: bv16 := 0;
    for i := 0 to |left|
      invariant result == 0 <==> forall k :: 0 <= k < i ==> left[k] == right[k]
    {
      DifferenceSticks(result, left[i], right[i]);
      result := result | (left[i] ^ right[i]);
    }
    return result == 0;
  }

  lemma DifferenceSticks(result: bv16, x: bv16, y: bv16)
    ensures (result | (x ^ y)) == 0 <==> result == 0 && x == y
  {
  }

  datatype MediaType = Mp4 | WebM | QuickTime | OtherMedia

  predicate HasExpectedSignature(bytes: Bytes, media: MediaType) {
    if media == WebM then |bytes| >= 4 && bytes[..4] == [0x1A, 0x45, 0xDF, 0xA3]
    else |bytes| >= 12 && bytes[4..8] == [0x66, 0x74, 0x79, 0x70]
  }

  /**
   A request after its fields have been read: `fileName` is sanitized, `sha256` is in lower case, and a field that is
   missing, too long or not base64 is `None`.
   */
  datatype Request = Request(
    fileName: Option<Text>, media: MediaType, bytes: Option<Bytes>, sha256: Option<Text>,
        controlRequestId: Option<Text>)

  /** SHA-256 as hexadecimal text, of a control request and of a file's content. */
  datatype Hashes = Hashes(ofText: Text -> Text, ofBytes: Bytes -> Text)

  predicate IsDigestText(t: Text) {
    |t| == 64 && forall k :: 0 <= k < 64 ==> 0x30 <= t[k] <= 0x39 || 0x61 <= t[k] <= 0x66
  }

  datatype Code =
    | ValidationError
    | InvalidVideoFile
    | InvalidVideoData
    | VideoSizeLimit
    | InvalidVideoSignature
    | ContentDigestMismatch
    | UploadBusy
    | IdempotencyStateInvalid
    | IdempotencyConflict
    | DriveFileError
    | Unexpected

  /** The checks before the lock, in order. */
  function Rejection(h: Hashes, q: Request): Option<Code> {
    if q.fileName.None? then Some(ValidationError)
    else if q.media == OtherMedia then Some(InvalidVideoFile)
    else if q.bytes.None? then Some(InvalidVideoData)
    else if !(1 <= |q.bytes.value| <= MAX_HTTP_INGEST_BYTES) then Some(VideoSizeLimit)
    else if !HasExpectedSignature(q.bytes.value, q.media) then Some(InvalidVideoSignature)
    else if q.sha256.None? || !IsDigestText(q.sha256.value) then Some(ValidationError)
    else if h.ofBytes(q.bytes.value) != q.sha256.value then Some(ContentDigestMismatch)
    else if q.controlRequestId.None? then Some(ValidationError)
    else None
  }

  // ---------------------------------------------------------------- the store

  /** `http-<sixteen digits of the request hash>-<file name>`, or any other name. */
  datatype Name = StoredName(hash16: Text, fileName: Text) | OtherName(Text)

  /** `requestHash` and `contentSha256` are the application properties an ingested file carries. */
  datatype File = File(name: Name, media: MediaType, content: Bytes, contentSha256: Text, requestHash: Text)

  /** A receipt's property text, which is read back as JSON. */
  datatype Receipt = Receipt(fileId: nat, contentSha256: Text) | Unreadable

  /** The inbox folder in the order Drive lists it; a file's id is its position. Files are never removed. */
  datatype Store = Store(receipts: map<Text, Receipt>, inbox: seq<File>)

  datatype Outcome = Accepted(fileId: nat, contentSha256: Text, replay: bool) | Refused(code: Code) | Killed

  function First16(hash: Text): Text {
    hash[..Min(16, |hash|)]
  }

  function FirstNamed(inbox: seq<File>, name: Name): (r: Option<nat>)
    ensures r.Some? ==> r.value < |inbox| && inbox[r.value].name == name
    ensures r.None? <==> forall f :: f in inbox ==> f.name != name
  {
    if inbox == [] then None
    else
      var front := FirstNamed(inbox[..|inbox| - 1], name);
      assert forall f :: f in inbox <==> f in inbox[..|inbox| - 1] || f == inbox[|inbox| - 1];
      if front.Some? then front
      else if inbox[|inbox| - 1].name == name then Some(|inbox| - 1)
      else None
  }

  function NameFor(h: Hashes, q: Request): Name
    requires Rejection(h, q).None?
  {
    StoredName(First16(h.ofText(q.controlRequestId.value)), q.fileName.value)
  }

  /** One accepted request under the lock. `killed` stops it between the Drive create and the receipt. */
  function Ingest(h: Hashes, s: Store, q: Request, killed: bool): (Store, Outcome)
    requires Rejection(h, q).None?
  {
    var requestHash, digest := h.ofText(q.controlRequestId.value), h.ofBytes(q.bytes.value);
    if requestHash in s.receipts then
      var receipt := s.receipts[requestHash];
      (s,
       if receipt.Unreadable? then Refused(IdempotencyStateInvalid)
       else if receipt.contentSha256 != digest then Refused(IdempotencyConflict)
       else if receipt.fileId >= |s.inbox| then Refused(DriveFileError)
       else Accepted(receipt.fileId, digest, true))
    else
      var existing := FirstNamed(s.inbox, NameFor(h, q));
      if existing.Some? then
        (s, Refused(if s.inbox[existing.value].contentSha256 != digest then IdempotencyConflict else Unexpected))
      else
        var inbox := s.inbox + [File(NameFor(h, q), q.media, q.bytes.value, digest, requestHash)];
        if killed then (s.(inbox := inbox), Killed)
        else (Store(s.receipts[requestHash := Receipt(|s.inbox|, digest)], inbox), Accepted(|s.inbox|, digest, false))
  }

  datatype Call = Call(request: Request, lockFree: bool, killed: bool)

  function Handle(h: Hashes, s: Store, c: Call): (Store, Outcome) {
    if Rejection(h, c.request).Some? then (s, Refused(Rejection(h, c.request).value))
    else if !c.lockFree then (s, Refused(UploadBusy))
    else Ingest(h, s, c.request, c.killed)
  }

  class VideoInbox {
    const hashes: Hashes
    var receipts: map<Text, Receipt>
    var inbox: seq<File>

    constructor (hashes: Hashes, inbox: seq<File>)
      ensures this.hashes == hashes && Contents() == Store(map[], inbox)
    {
      this.hashes, receipts, this.inbox := hashes, map[], inbox;
    }

    function Contents(): Store
      reads this
    {
      Store(receipts, inbox)
    }

    method IngestHttpVideo(q: Request, lockFree: bool, killed: bool) returns (outcome: Outcome)
      modifies this
      ensures (Contents(), outcome) == Handle(hashes, old(Contents()), Call(q, lockFree, killed))
    {
      var rejection := Rejection(hashes, q);
      if rejection.Some? {
        return Refused(rejection.value);
      }
      var requestHash, actual := hashes.ofText(q.controlRequestId.value), hashes.ofBytes(q.bytes.value);
      var storedName := StoredName(First16(requestHash), q.fileName.value);
      if !lockFree {
        return Refused(UploadBusy);
      }
      if requestHash in receipts {
        if receipts[requestHash].Unreadable? {
          return Refused(IdempotencyStateInvalid);
        }
        var same := ConstantTimeEquals(receipts[requestHash].contentSha256, actual);
        if !same {
          return Refused(IdempotencyConflict);
        }
        if receipts[requestHash].fileId >= |inbox| {
          return Refused(DriveFileError);
        }
        return Accepted(receipts[requestHash].fileId, actual, true);
      }
      var existing := FirstNamed(inbox, storedName);
      if existing.Some? {
        var same := ConstantTimeEquals(inbox[existing.value].contentSha256, actual);
        // The recovery write goes to the file's own properties, which shadow the store, and throws.
        return Refused(if same then Unexpected else IdempotencyConflict);
      }
      inbox := inbox + [File(storedName, q.media, q.bytes.value, actual, requestHash)];
      if killed {
        return Killed;
      }
      receipts := receipts[requestHash := Receipt(|inbox| - 1, actual)];
      return Accepted(|inbox| - 1, actual, false);
    }
  }

  // ---------------------------------------------------------------- a write-once map

  function Run(h: Hashes, s: Store, calls: seq<Call>): Store {
    if calls == [] then s else Handle(h, Run(h, s, calls[..|calls| - 1]), calls[|calls| - 1]).0
  }

  /**
   A receipt is readable and names an existing, non-empty video file with the recorded digest, ingested for this
   request.
   */
  ghost predicate ReceiptOk(h: Hashes, s: Store, key: Text) {
    key in s.receipts ==>
      var r := s.receipts[key];
      && r.Receipt?
      && r.fileId < |s.inbox|
      && s.inbox[r.fileId].contentSha256 == r.contentSha256 == h.ofBytes(s.inbox[r.fileId].content)
      && s.inbox[r.fileId].requestHash == key
      && s.inbox[r.fileId].content != []
      && s.inbox[r.fileId].media != OtherMedia
  }

  ghost predicate Inv(h: Hashes, s: Store) {
    forall key :: ReceiptOk(h, s, key)
  }

  lemma HandleKeepsInv(h: Hashes, s: Store, c: Call)
    requires Inv(h, s)
    ensures Inv(h, Handle(h, s, c).0)
    ensures s.receipts.Keys <= Handle(h, s, c).0.receipts.Keys && s.inbox <= Handle(h, s, c).0.inbox
    ensures forall key :: key in s.receipts ==> Handle(h, s, c).0.receipts[key] == s.receipts[key]
  {
    var t := Handle(h, s, c).0;
    forall key
      ensures ReceiptOk(h, t, key)
    {
      assert ReceiptOk(h, s, key);
    }
  }

  /**
   Over every sequence of calls, killed or not, receipts are written once and go on naming an existing file with its
   digest.
   */
  lemma {:induction false} ReceiptsAreWrittenOnce(h: Hashes, s: Store, calls: seq<Call>)
    requires Inv(h, s)
    ensures Inv(h, Run(h, s, calls))
    ensures s.receipts.Keys <= Run(h, s, calls).receipts.Keys && s.inbox <= Run(h, s, calls).inbox
    ensures forall key :: key in s.receipts ==> Run(h, s, calls).receipts[key] == s.receipts[key]
  {
    if calls != [] {
      var front := calls[..|calls| - 1];
      ReceiptsAreWrittenOnce(h, s, front);
      HandleKeepsInv(h, Run(h, s, front), calls[|calls| - 1]);
    }
  }

  /**
   After the first accepted call for a request, whatever calls come between, a call with the same content returns the
   same file as a replay, renamed or not, and a call with another digest conflicts; neither changes anything.
   */
  lemma LaterCallsReplayOrConflict(h: Hashes, s: Store, calls: seq<Call>, q: Request)
    requires Inv(h, s) && Rejection(h, q).None? && h.ofText(q.controlRequestId.value) in s.receipts
    ensures var r, t := s.receipts[h.ofText(q.controlRequestId.value)], Run(h, s, calls);
            r.Receipt? &&
            Handle(h, t, Call(q, true, false)) ==
            (t, if h.ofBytes(q.bytes.value) == r.contentSha256 then Accepted(r.fileId, r.contentSha256, true)
                else Refused(IdempotencyConflict))
  {
    ReceiptsAreWrittenOnce(h, s, calls);
    assert ReceiptOk(h, s, h.ofText(q.controlRequestId.value));
    assert ReceiptOk(h, Run(h, s, calls), h.ofText(q.controlRequestId.value));
  }

  /**
   When nothing else has the digest of the bytes sent, the comparison is of contents: a replay returns a file with
   exactly the bytes sent.
   */
  lemma ReplayReturnsTheContent(h: Hashes, s: Store, q: Request)
    requires Inv(h, s) && Rejection(h, q).None? && h.ofText(q.controlRequestId.value) in s.receipts
    requires forall a :: h.ofBytes(a) == h.ofBytes(q.bytes.value) ==> a == q.bytes.value
    ensures s.receipts[h.ofText(q.controlRequestId.value)].Receipt?
    ensures var fileId := s.receipts[h.ofText(q.controlRequestId.value)].fileId;
            && fileId < |s.inbox|
            && (Handle(h, s, Call(q, true, false)).1.Accepted? <==> s.inbox[fileId].content == q.bytes.value)
  {
    assert ReceiptOk(h, s, h.ofText(q.controlRequestId.value));
  }

  /**
   The first valid call for a request stores its bytes exactly when no file in the inbox already has the name it picks.
   */
  lemma FirstCallStoresIffNameIsFree(h: Hashes, s: Store, q: Request)
    requires Inv(h, s) && Rejection(h, q).None? && h.ofText(q.controlRequestId.value) !in s.receipts
    ensures var (t, outcome) := Handle(h, s, Call(q, true, false));
            && (outcome.Accepted? <==> forall f :: f in s.inbox ==> f.name != NameFor(h, q))
            && (outcome.Accepted? ==>
                  && !outcome.replay
                  && |t.inbox| == |s.inbox| + 1 && t.inbox[outcome.fileId].content == q.bytes.value
                  && t.receipts ==
                      s.receipts[h.ofText(q.controlRequestId.value) := Receipt(outcome.fileId, outcome.contentSha256)])
            && (!outcome.Accepted? ==> t == s)
  {
  }

  // ---------------------------------------------------------------- what gets in

  predicate IsVideo(media: MediaType, bytes: Bytes) {
    match media
    case WebM => |bytes| >= 4 && bytes[0] == 0x1A && bytes[1] == 0x45 && bytes[2] == 0xDF && bytes[3] == 0xA3
    case OtherMedia => false
    case _ => |bytes| >= 12 && bytes[4] == 0x66 && bytes[5] == 0x74 && bytes[6] == 0x79 && bytes[7] == 0x70
  }

  /** The text is 64 hexadecimal digits, the letters in lower case. */
  predicate IsHex64(t: Text) {
    |t| == 64 && forall k :: 0 <= k < 64 ==> 0x30 <= t[k] <= 0x39 || 0x61 <= t[k] <= 0x66
  }

  /**
   Whatever is accepted, replayed or new, is what it was declared to be: a video of 1 byte to 8 MiB with its container's
   signature, whose digest is the one sent along, the one answered and the one recorded with the file.
   */
  lemma AcceptedIsAsDeclared(h: Hashes, s: Store, c: Call)
    requires Inv(h, s) && Handle(h, s, c).1.Accepted?
    ensures var q, (t, outcome) := c.request, Handle(h, s, c);
            && q.fileName.Some? && q.controlRequestId.Some? && q.bytes.Some? && c.lockFree
            && 1 <= |q.bytes.value| <= 8_388_608 && IsVideo(q.media, q.bytes.value)
            && q.sha256 == Some(outcome.contentSha256) && h.ofBytes(q.bytes.value) == outcome.contentSha256
            && IsHex64(outcome.contentSha256)
            && outcome.fileId < |t.inbox| && t.inbox[outcome.fileId].contentSha256 == outcome.contentSha256
            && (!outcome.replay && |h.ofText(q.controlRequestId.value)| >= 16 ==>
                  t.inbox[outcome.fileId] == File(
                    StoredName(h.ofText(q.controlRequestId.value)[..16], q.fileName.value), q.media, q.bytes.value,
                    outcome.contentSha256, h.ofText(q.controlRequestId.value)))
  {
    assert ReceiptOk(h, s, h.ofText(c.request.controlRequestId.value));
  }

  /** A request is turned away by its first failing check, in the order of the source, and then nothing changes. */
  lemma FirstFailingCheckDecides(h: Hashes, s: Store, c: Call)
    ensures var q, (t, outcome) := c.request, Handle(h, s, c);
            var named := q.fileName.Some?;
            var typed := named && q.media != OtherMedia;
            var decoded := typed && q.bytes.Some?;
            var sized := decoded && 1 <= |q.bytes.value| <= 8_388_608;
            var signed := sized && IsVideo(q.media, q.bytes.value);
            var declared := signed && q.sha256.Some? && IsHex64(q.sha256.value);
            var matching := declared && h.ofBytes(q.bytes.value) == q.sha256.value;
            var keyed := matching && q.controlRequestId.Some?;
            && (!named ==> outcome == Refused(ValidationError))
            && (named && !typed ==> outcome == Refused(InvalidVideoFile))
            && (typed && !decoded ==> outcome == Refused(InvalidVideoData))
            && (decoded && !sized ==> outcome == Refused(VideoSizeLimit))
            && (sized && !signed ==> outcome == Refused(InvalidVideoSignature))
            && (signed && !declared ==> outcome == Refused(ValidationError))
            && (declared && !matching ==> outcome == Refused(ContentDigestMismatch))
            && (matching && !keyed ==> outcome == Refused(ValidationError))
            && (keyed && !c.lockFree ==> outcome == Refused(UploadBusy))
            && (!keyed || !c.lockFree || outcome.Refused? ==> t == s)
  {
  }

  /** Past the checks and the lock, the receipt decides, and without one the file that already has the name. */
  lemma StoreDecidesTheRest(h: Hashes, s: Store, q: Request, killed: bool)
    requires Rejection(h, q).None?
    ensures var key, digest := h.ofText(q.controlRequestId.value), h.ofBytes(q.bytes.value);
            var outcome, taken := Handle(h, s, Call(q, true, killed)).1, FirstNamed(s.inbox, NameFor(h, q));
            && (key in s.receipts && s.receipts[key].Unreadable? ==> outcome == Refused(IdempotencyStateInvalid))
            && (key in s.receipts && s.receipts[key].Receipt? && s.receipts[key].contentSha256 != digest ==>
                  outcome == Refused(IdempotencyConflict))
            && (key !in s.receipts && taken.Some? ==>
                  outcome == Refused(if s.inbox[taken.value].contentSha256 != digest then IdempotencyConflict
                                     else Unexpected))
            && (key !in s.receipts && taken.None? ==>
                  outcome == if killed then Killed else Accepted(|s.inbox|, digest, false))
  {
  }

  // ---------------------------------------------------------------- how many files one request can create

  function FilesFor(inbox: seq<File>, requestHash: Text): nat {
    if inbox == [] then 0
    else FilesFor(inbox[..|inbox| - 1], requestHash) + if inbox[|inbox| - 1].requestHash == requestHash then 1 else 0
  }

  /**
   Exactly the files with receipts: what holds as long as no call has died between creating its file and its receipt.
   */
  ghost predicate OneFileEach(s: Store, start: seq<File>) {
    forall key :: FilesFor(s.inbox, key) == FilesFor(start, key) + if key in s.receipts then 1 else 0
  }

  lemma {:induction false} CompletedCallsCreateOneFileEach(h: Hashes, start: seq<File>, calls: seq<Call>)
    requires forall c :: c in calls ==> !c.killed
    ensures OneFileEach(Run(h, Store(map[], start), calls), start)
  {
    if calls != [] {
      var front, c := calls[..|calls| - 1], calls[|calls| - 1];
      CompletedCallsCreateOneFileEach(h, start, front);
      var s := Run(h, Store(map[], start), front);
      var t := Handle(h, s, c).0;
      if t.inbox != s.inbox {
        assert t.inbox[..|t.inbox| - 1] == s.inbox;
      }
    }
  }

  lemma {:induction false} FirstNameStays(inbox: seq<File>, name: Name, more: seq<File>)
    requires FirstNamed(inbox, name).Some?
    ensures FirstNamed(inbox + more, name) == FirstNamed(inbox, name)
  {
    if more == [] {
      assert inbox + more == inbox;
    } else {
      assert (inbox + more)[..|inbox + more| - 1] == inbox + more[..|more| - 1];
      FirstNameStays(inbox, name, more[..|more| - 1]);
    }
  }

  lemma {:induction false} InboxOnlyGrows(h: Hashes, s: Store, calls: seq<Call>)
    ensures s.inbox <= Run(h, s, calls).inbox
  {
    if calls != [] {
      InboxOnlyGrows(h, s, calls[..|calls| - 1]);
    }
  }

  /** What a call leaves behind that is killed between the Drive create and its receipt: its file, first of its name. */
  lemma KilledCallLeavesItsFile(h: Hashes, s: Store, q: Request)
    requires Rejection(h, q).None? && h.ofText(q.controlRequestId.value) !in s.receipts
    requires FirstNamed(s.inbox, NameFor(h, q)).None?
    ensures var t := Handle(h, s, Call(q, true, true)).0;
            && t.receipts == s.receipts && |t.inbox| == |s.inbox| + 1
            && FirstNamed(t.inbox, NameFor(h, q)) == Some(|s.inbox|)
            && t.inbox[|s.inbox|].contentSha256 == h.ofBytes(q.bytes.value)
  {
    var t := Handle(h, s, Call(q, true, true)).0;
    assert t.inbox[..|t.inbox| - 1] == s.inbox;
    assert t.inbox[|s.inbox|] in t.inbox;
  }

  /**
   A call killed between the Drive create and its receipt is never recovered. Whatever calls come later, as long as the
   request has no receipt, the same call fails and changes nothing, and under a free name it stores the bytes once more.
   */
  lemma KilledCallIsNotRecovered(h: Hashes, s: Store, q: Request, calls: seq<Call>, renamed: Text)
    requires Rejection(h, q).None? && h.ofText(q.controlRequestId.value) !in s.receipts
    requires FirstNamed(s.inbox, NameFor(h, q)).None?
    ensures var t, again := Run(h, Handle(h, s, Call(q, true, true)).0, calls), q.(fileName := Some(renamed));
            h.ofText(q.controlRequestId.value) !in t.receipts ==>
              && Handle(h, t, Call(q, true, false)) == (t, Refused(Unexpected))
              && (FirstNamed(t.inbox, NameFor(h, again)).None? ==>
                    FilesFor(Handle(h, t, Call(again, true, false)).0.inbox, h.ofText(q.controlRequestId.value))
                    == FilesFor(t.inbox, h.ofText(q.controlRequestId.value)) + 1)
  {
    var killed := Handle(h, s, Call(q, true, true)).0;
    KilledCallLeavesItsFile(h, s, q);
    InboxOnlyGrows(h, killed, calls);
    var t := Run(h, killed, calls);
    assert t.inbox == killed.inbox + t.inbox[|killed.inbox|..];
    FirstNameStays(killed.inbox, NameFor(h, q), t.inbox[|killed.inbox|..]);
    var again := q.(fileName := Some(renamed));
    var u := Handle(h, t, Call(again, true, false)).0;
    if h.ofText(q.controlRequestId.value) !in t.receipts && FirstNamed(t.inbox, NameFor(h, again)).None? {
      assert u.inbox[..|u.inbox| - 1] == t.inbox;
    }
  }
}

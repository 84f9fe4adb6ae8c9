/** `src/core/NfcReaderWriter.ts`: classification of a tag's first record,
    the read session driven by the NFC manager's two events, and the outcome
    of a write. The radio and the NDEF codec are inputs: what the first
    record turned out to be, which events arrive, how a write went. */
module NfcReaderWriter {
  import opened Text
  import opened Wrappers

  /** What reading the first NDEF record of a discovered tag gives: decoded
      well-known text, a record of another type, or an exception (with or
      without a message) from the type check or the decoder. */
  datatype RecordOutcome = TextRecord(text: string) | OtherRecord | Thrown(message: Option<string>)

  /** `ParseTagResult`, `NfcTagReadResult` and `NfcTagWriteResult` (the last
      without `text`). */
  datatype TagResult = TagResult(success: bool, error: string, text: string)

  const InvalidTag := "Invalid Nfc Tag. Please try again with another tag"
  const ReadFailed := "Something went wrong on reading Nfc Tag"
  const NoTagNearby := "Unable to find any Nfc Tag nearby. Please try again"
  const WriteRejected := "Unable to write data on Nfc Tag. Please try again"
  const WriteFailed := "Something went wrong writing Nfc Tag. Please try again"

  /** `parseText`: None where the function falls off its end and returns
      `undefined`, which happens for a record that is not text. */
  function ParseText(r: RecordOutcome): (p: Option<TagResult>)
    ensures p.None? <==> r.OtherRecord?
    ensures r.TextRecord? && AllSpace(r.text) ==> p == Some(TagResult(false, InvalidTag, ""))
    ensures r.TextRecord? && !AllSpace(r.text) ==> p == Some(TagResult(true, "", r.text))
    ensures r.Thrown? ==> p == Some(TagResult(false, r.message.GetOr(ReadFailed), ""))
  {
    match r
    case TextRecord(text) =>
      TrimEmptyIffAllSpace(text);
      if Trim(text) == "" then Some(TagResult(false, InvalidTag, "")) else Some(TagResult(true, "", text))
    case OtherRecord => None
    case Thrown(message) => Some(TagResult(false, message.GetOr(ReadFailed), ""))
  }

  /** What the DiscoverTag listener resolves for a parse result. */
  function ReadResultOf(p: TagResult): (r: TagResult)
    ensures r.success == p.success
    ensures r.success ==> r.error == "" && r.text == p.text
    ensures !r.success ==> r.error == p.error && r.text == ""
  {
    if p.success then TagResult(true, "", p.text) else TagResult(false, p.error, "")
  }

  datatype Event = DiscoverTag(record: RecordOutcome) | SessionClosed

  /** The state of one `readNfcTag` call: the two listeners, whether tag
      discovery is still registered, the closure's `tagFound` and what the
      promise was resolved with. */
  datatype ReadState = ReadState(
    discoverListener: bool,
    closedListener: bool,
    tagEventRegistered: bool,
    tagFound: bool,
    resolved: Option<TagResult>)

  /** Right after `readNfcTag` has set both listeners and registered. */
  const Started := ReadState(true, true, true, false, None)

  /** A promise keeps the first value it is resolved with. */
  function Resolve(s: ReadState, r: TagResult): ReadState {
    if s.resolved.None? then s.(resolved := Some(r)) else s
  }

  /** One event. A tag is delivered only while discovery is registered and
      its listener set. When `parseText` returns nothing, reading `success`
      of it throws: nothing is resolved and discovery stays registered. */
  function Step(s: ReadState, e: Event): ReadState {
    match e
    case DiscoverTag(record) =>
      if !(s.discoverListener && s.tagEventRegistered) then s
      else
        var found := s.(tagFound := true);
        (match ParseText(record)
         case None => found
         case Some(p) => Resolve(found, ReadResultOf(p)).(tagEventRegistered := false))
    case SessionClosed =>
      if !s.closedListener then s
      else
        var cleaned := s.(discoverListener := false, closedListener := false);
        if !s.tagFound then Resolve(cleaned, TagResult(false, NoTagNearby, "")) else cleaned
  }

  function Run(s: ReadState, events: seq<Event>): ReadState
    decreases |events|
  {
    if events == [] then s else Run(Step(s, events[0]), events[1..])
  }

  /** The NFC manager as the module uses it, with the state of the current
      read. */
  class NfcManager {
    var discoverListener: bool
    var closedListener: bool
    var tagEventRegistered: bool
    var tagFound: bool
    var resolved: Option<TagResult>
    var technologyRequested: bool

    ghost function State(): ReadState
      reads this
    {
      ReadState(discoverListener, closedListener, tagEventRegistered, tagFound, resolved)
    }

    constructor()
      ensures !discoverListener && !closedListener && !tagEventRegistered && !technologyRequested
      ensures !tagFound && resolved.None?
    {
      discoverListener, closedListener, tagEventRegistered := false, false, false;
      tagFound, resolved, technologyRequested := false, None, false;
    }

    /** `readNfcTag`, up to the point where it waits for events. */
    method ReadNfcTag()
      modifies this
      ensures State() == Started
      ensures technologyRequested == old(technologyRequested)
    {
      tagFound, resolved := false, None;
      discoverListener, closedListener := true, true;
      tagEventRegistered := true;
    }

    /** `cleanUpReadingListners`: both listeners removed; repeating it
        changes nothing more. */
    method CleanUpReadingListeners()
      modifies this
      ensures !discoverListener && !closedListener
      ensures tagEventRegistered == old(tagEventRegistered) && tagFound == old(tagFound)
      ensures resolved == old(resolved) && technologyRequested == old(technologyRequested)
    {
      discoverListener, closedListener := false, false;
    }

    method ResolveWith(r: TagResult)
      modifies this
      ensures State() == Resolve(old(State()), r)
      ensures technologyRequested == old(technologyRequested)
    {
      if resolved.None? {
        resolved := Some(r);
      }
    }

    /** The DiscoverTag listener. */
    method OnDiscoverTag(record: RecordOutcome)
      modifies this
      ensures State() == Step(old(State()), DiscoverTag(record))
      ensures technologyRequested == old(technologyRequested)
    {
      if discoverListener && tagEventRegistered {
        tagFound := true;
        var p := ParseText(record);
        if p.Some? {
          ResolveWith(ReadResultOf(p.value));
          tagEventRegistered := false;
        }
      }
    }

    /** The SessionClosed listener. */
    method OnSessionClosed()
      modifies this
      ensures State() == Step(old(State()), SessionClosed)
      ensures technologyRequested == old(technologyRequested)
    {
      if closedListener {
        CleanUpReadingListeners();
        if !tagFound {
          ResolveWith(TagResult(false, NoTagNearby, ""));
        }
      }
    }

    /** `writeNfcTag`: requests the technology, tries the write, and cancels
        the request in `finally`, whatever happened. */
    method WriteNfcTag(attempt: WriteAttempt) returns (r: TagResult)
      modifies this
      ensures r == WriteResult(attempt)
      ensures !technologyRequested
      ensures State() == old(State())
    {
      technologyRequested := true;
      r := WriteResult(attempt);
      technologyRequested := false;
    }
  }

  /** How a write went: the technology request or the write threw (with or
      without a message), the encoder gave no bytes, or the message was
      written. */
  datatype WriteAttempt = WriteThrew(message: Option<string>) | NoBytes | Written

  function WriteResult(a: WriteAttempt): (r: TagResult)
    ensures r.success <==> a.Written?
    ensures r.text == ""
    ensures a.Written? ==> r.error == ""
    ensures a.NoBytes? ==> r.error == WriteRejected
    ensures a.WriteThrew? ==> r.error == a.message.GetOr(WriteFailed)
  {
    match a
    case Written => TagResult(true, "", "")
    case NoBytes => TagResult(false, WriteRejected, "")
    case WriteThrew(m) => TagResult(false, m.GetOr(WriteFailed), "")
  }

  // ---------------------------------------------------------------------
  // Properties of the read session

  lemma {:induction false} RunAppend(s: ReadState, a: seq<Event>, b: seq<Event>)
    ensures Run(s, a + b) == Run(Run(s, a), b)
    decreases |a|
  {
    if a == [] {
      assert a + b == b;
    } else {
      assert (a + b)[0] == a[0];
      assert (a + b)[1..] == a[1..] + b;
      RunAppend(Step(s, a[0]), a[1..], b);
    }
  }

  /** Once resolved, no later event changes the result. */
  lemma {:induction false} ResolvedStays(s: ReadState, events: seq<Event>)
    requires s.resolved.Some?
    ensures Run(s, events).resolved == s.resolved
    decreases |events|
  {
    if events != [] {
      ResolvedStays(Step(s, events[0]), events[1..]);
    }
  }

  /** A session, once it has had a tag, stays so. */
  lemma {:induction false} TagFoundStays(s: ReadState, events: seq<Event>)
    requires s.tagFound
    ensures Run(s, events).tagFound
    decreases |events|
  {
    if events != [] {
      TagFoundStays(Step(s, events[0]), events[1..]);
    }
  }

  /** The read resolves at most once: whatever later events arrive, the
      result of any prefix that resolved is the final one. */
  lemma ResolvesOnce(events: seq<Event>, more: seq<Event>)
    requires Run(Started, events).resolved.Some?
    ensures Run(Started, events + more).resolved == Run(Started, events).resolved
  {
    RunAppend(Started, events, more);
    ResolvedStays(Run(Started, events), more);
  }

  /** Tags whose first record is not text, delivered before any close,
      leave the listeners and the registration in place and nothing
      resolved. */
  lemma {:induction false} NonTextTagsKeepListening(s: ReadState, tags: seq<Event>)
    requires s.discoverListener && s.closedListener && s.tagEventRegistered && s.resolved.None?
    requires forall i | 0 <= i < |tags| :: tags[i] == DiscoverTag(OtherRecord)
    ensures var t := Run(s, tags);
      t.discoverListener && t.closedListener && t.tagEventRegistered && t.resolved.None?
    decreases |tags|
  {
    if tags != [] {
      NonTextTagsKeepListening(Step(s, tags[0]), tags[1..]);
    }
  }

  /** The first discovered tag with a parse result decides the read, after
      any number of non-text tags: success with its text, or failure with
      its error and empty text, whatever follows. */
  lemma {:induction false} FirstTagDecides(nonText: seq<Event>, record: RecordOutcome, later: seq<Event>)
    requires forall i | 0 <= i < |nonText| :: nonText[i] == DiscoverTag(OtherRecord)
    requires ParseText(record).Some?
    ensures Run(Started, nonText + ([DiscoverTag(record)] + later)).resolved
            == Some(ReadResultOf(ParseText(record).value))
  {
    NonTextTagsKeepListening(Started, nonText);
    RunAppend(Started, nonText, [DiscoverTag(record)] + later);
    TagDecides(Run(Started, nonText), record, later);
  }

  /** A tag with a parse result, heard while unresolved, decides the read. */
  lemma {:induction false} TagDecides(s: ReadState, record: RecordOutcome, later: seq<Event>)
    requires s.discoverListener && s.tagEventRegistered && s.resolved.None?
    requires ParseText(record).Some?
    ensures Run(s, [DiscoverTag(record)] + later).resolved == Some(ReadResultOf(ParseText(record).value))
  {
    assert ([DiscoverTag(record)] + later)[1..] == later;
    ResolvedStays(Step(s, DiscoverTag(record)), later);
  }

  /** SessionClosed before any tag resolves the "no tag nearby" failure, and
      later events change nothing. */
  lemma ClosedBeforeTag(later: seq<Event>)
    ensures Run(Started, [SessionClosed] + later).resolved == Some(TagResult(false, NoTagNearby, ""))
  {
    assert ([SessionClosed] + later)[1..] == later;
    ResolvedStays(Step(Started, SessionClosed), later);
  }

  /** After SessionClosed the listeners are gone: a tag arriving later is not
      seen. */
  lemma ClosedIgnoresTags(s: ReadState, record: RecordOutcome)
    requires s.closedListener
    ensures Step(Step(s, SessionClosed), DiscoverTag(record)) == Step(s, SessionClosed)
  {
  }

  /** A first tag that is not text leaves the read unresolved, and closing the
      session then resolves nothing either: the read hangs. */
  lemma {:induction false} NonTextTagHangs(closes: nat)
    ensures Run(Started, [DiscoverTag(OtherRecord)] + Closes(closes)).resolved.None?
  {
    var s := Step(Started, DiscoverTag(OtherRecord));
    assert s.tagFound && s.resolved.None?;
    assert ([DiscoverTag(OtherRecord)] + Closes(closes))[1..] == Closes(closes);
    ClosesResolveNothing(s, closes);
  }

  /** `n` SessionClosed events. */
  function Closes(n: nat): (es: seq<Event>)
    ensures |es| == n && forall i | 0 <= i < n :: es[i] == SessionClosed
  {
    if n == 0 then [] else [SessionClosed] + Closes(n - 1)
  }

  lemma {:induction false} ClosesResolveNothing(s: ReadState, n: nat)
    requires s.tagFound && s.resolved.None?
    ensures Run(s, Closes(n)).resolved.None?
    decreases n
  {
    if n > 0 {
      var es := Closes(n);
      assert es[1..] == Closes(n - 1);
      ClosesResolveNothing(Step(s, SessionClosed), n - 1);
    }
  }
}

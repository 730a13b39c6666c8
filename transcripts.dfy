/** A transcript and a group of transcripts from assemblyai/transcriber.py:
    the polling loop that waits for a transcript to settle, the ordered
    collection of a group and the status a group reports. */
module Transcripts {
  import opened Wrappers
  import opened Json
  import opened Types

  /** The part of a `TranscriptResponse` the modelled code looks at; every
      other field is kept, unread, in `fields`. */
  datatype TranscriptResponse = TranscriptResponse(
    id: string,
    status: TranscriptStatus,
    error: Option<string>,
    fields: map<string, Value>)

  /** One call to the transcript endpoint: the response it returned, or the
      text of the exception it raised. */
  datatype PollResult = Fetched(response: TranscriptResponse) | PollFailed(text: string)

  /** How the polling loop ended. `StillPending` means the polls given ran out
      before a settled status was seen (the source would keep polling). */
  datatype WaitEnd = Settled | StillPending | WaitRaised(exc: Exception)

  datatype Waited = Waited(transcript: Option<TranscriptResponse>, polled: nat, end: WaitEnd)

  /** Completed and error are the statuses the polling loop stops at. */
  predicate IsSettled(r: TranscriptResponse) {
    r.status == Completed || r.status == Error
  }

  /** The transcript after one poll: the fetched response, or the current one
      rebuilt with status error and the exception text; with no current
      transcript the rebuild itself fails with AttributeError. */
  function Poll(current: Option<TranscriptResponse>, p: PollResult): (r: Result<TranscriptResponse>)
    ensures p.Fetched? ==> r == Ok(p.response)
    ensures p.PollFailed? && current.Some? ==>
      r.Ok? && r.value.status == Error && r.value.error == Some(p.text) &&
      r.value.id == current.value.id && r.value.fields == current.value.fields
    ensures r.Raised? <==> p.PollFailed? && current.None?
    ensures r.Raised? ==> r.exc == AttributeError
  {
    match p
    case Fetched(response) => Ok(response)
    case PollFailed(text) =>
      if current.None? then Raised(AttributeError)
      else Ok(current.value.(status := Error, error := Some(text)))
  }

  /** The polling loop run over the given poll results, from the transcript
      held before the first poll. */
  function Wait(current: Option<TranscriptResponse>, polls: seq<PollResult>): (w: Waited)
    ensures w.polled <= |polls|
    ensures w.end.StillPending? ==> w.polled == |polls|
    ensures w.end.Settled? ==> w.transcript.Some? && IsSettled(w.transcript.value) && 0 < w.polled
    ensures w.end.WaitRaised? ==>
      w.end.exc == AttributeError && current.None? && |polls| > 0 && polls[0].PollFailed? && w.polled == 1 && w.transcript == None
    decreases |polls|
  {
    if polls == [] then Waited(current, 0, StillPending)
    else
      match Poll(current, polls[0])
      case Raised(e) => Waited(current, 1, WaitRaised(e))
      case Ok(r) =>
        if IsSettled(r) then Waited(Some(r), 1, Settled)
        else
          var w := Wait(Some(r), polls[1..]);
          w.(polled := w.polled + 1)
  }

  /** Polling `polls + more` is polling `polls` and, if that did not settle,
      carrying on with `more` from the transcript it left. */
  lemma {:induction false} WaitSplits(current: Option<TranscriptResponse>, polls: seq<PollResult>, more: seq<PollResult>)
    ensures Wait(current, polls + more) ==
      var w := Wait(current, polls);
      if w.end.StillPending? then
        var w' := Wait(w.transcript, more);
        w'.(polled := |polls| + w'.polled)
      else w
    decreases |polls|
  {
    if polls == [] {
      assert polls + more == more;
    } else {
      assert (polls + more)[0] == polls[0];
      assert (polls + more)[1..] == polls[1..] + more;
      match Poll(current, polls[0])
      case Raised(e) =>
      case Ok(r) =>
        if !IsSettled(r) {
          WaitSplits(Some(r), polls[1..], more);
        }
    }
  }

  /** Once the loop has stopped, later poll results are never consulted. */
  lemma WaitIgnoresLaterPolls(current: Option<TranscriptResponse>, polls: seq<PollResult>, more: seq<PollResult>)
    requires !Wait(current, polls).end.StillPending?
    ensures Wait(current, polls + more) == Wait(current, polls)
  {
    WaitSplits(current, polls, more);
  }

  /** The loop stops at the FIRST settled poll: no shorter prefix of the polls
      it consumed had already settled. */
  lemma StopsAtFirstSettled(current: Option<TranscriptResponse>, polls: seq<PollResult>, k: nat)
    requires Wait(current, polls).end.Settled?
    requires k < Wait(current, polls).polled
    ensures Wait(current, polls[..k]).end.StillPending?
  {
    assert polls == polls[..k] + polls[k..];
    if !Wait(current, polls[..k]).end.StillPending? {
      WaitIgnoresLaterPolls(current, polls[..k], polls[k..]);
    }
  }

  /** A failed poll after a successful one settles the transcript as an error
      carrying the exception text. */
  lemma FailedPollSettlesAsError(t: TranscriptResponse, text: string, rest: seq<PollResult>)
    ensures Wait(Some(t), [PollFailed(text)] + rest) ==
      Waited(Some(t.(status := Error, error := Some(text))), 1, Settled)
  {
    assert ([PollFailed(text)] + rest)[0] == PollFailed(text);
  }

  /** The statuses in order of precedence in a group: an error outranks a
      queued transcript, which outranks a processing one. */
  function Severity(s: TranscriptStatus): nat {
    match s
    case Completed => 0
    case Processing => 1
    case Queued => 2
    case Error => 3
  }

  /** The status a group reports for the set of its members' statuses: the
      most severe one present, and completed for an empty group. */
  function GroupStatus(statuses: set<TranscriptStatus>): (r: TranscriptStatus)
    ensures statuses == {} ==> r == Completed
    ensures statuses != {} ==> r in statuses
    ensures forall s :: s in statuses ==> Severity(s) <= Severity(r)
  {
    if Error in statuses then Error
    else if Queued in statuses then Queued
    else if Processing in statuses then Processing
    else assert forall s :: s in statuses ==> s == Completed; Completed
  }

  /** The group status is the only status that is present (or completed, for
      no members) and at least as severe as every member. */
  lemma GroupStatusIsMostSevere(statuses: set<TranscriptStatus>, r: TranscriptStatus)
    requires statuses == {} ==> r == Completed
    requires statuses != {} ==> r in statuses
    requires forall s :: s in statuses ==> Severity(s) <= Severity(r)
    ensures r == GroupStatus(statuses)
  {
    var g := GroupStatus(statuses);
    if statuses != {} {
      assert Severity(g) <= Severity(r) && Severity(r) <= Severity(g);
    }
  }

  /** The precedence rule as stated in the source, in both directions. */
  lemma GroupStatusPrecedence(statuses: set<TranscriptStatus>)
    ensures GroupStatus(statuses) == Error <==> Error in statuses
    ensures GroupStatus(statuses) == Queued <==> Error !in statuses && Queued in statuses
    ensures GroupStatus(statuses) == Processing <==> Error !in statuses && Queued !in statuses && Processing in statuses
    ensures GroupStatus(statuses) == Completed <==> statuses <= {Completed}
  {
    if GroupStatus(statuses) == Completed {
      forall s | s in statuses ensures s == Completed {
        assert Severity(s) <= Severity(Completed);
      }
    }
  }

  /** Merging two groups reports the more severe of their two statuses. */
  lemma GroupStatusUnion(a: set<TranscriptStatus>, b: set<TranscriptStatus>)
    ensures GroupStatus(a + b) ==
      if Severity(GroupStatus(a)) >= Severity(GroupStatus(b)) then GroupStatus(a) else GroupStatus(b)
  {
    var ga, gb := GroupStatus(a), GroupStatus(b);
    var r := if Severity(ga) >= Severity(gb) then ga else gb;
    if a + b == {} {
    } else if a == {} {
      assert b != {};
      assert Severity(gb) >= Severity(ga);
    } else if b == {} {
      assert Severity(ga) >= Severity(gb);
    }
    GroupStatusIsMostSevere(a + b, r);
  }

  /** The sequence of additions and checks of the group unit test. */
  lemma GroupStatusExamples()
    ensures GroupStatus({Completed}) == Completed
    ensures GroupStatus({Completed, Queued}) == Queued
    ensures GroupStatus({Completed, Queued, Processing}) == Queued
    ensures GroupStatus({Completed, Queued, Processing, Error}) == Error
  {
  }

  /** An argument to `add_transcript`: a transcript, a transcript id, or a
      value of any other type. */
  datatype TranscriptItem = Existing(transcript: Transcript) | IdString(id: string) | OtherItem

  /** A transcript: its id and the response it holds, if any. */
  class Transcript {
    const transcriptId: Option<string>
    var transcript: Option<TranscriptResponse>

    constructor(transcriptId: Option<string>)
      ensures this.transcriptId == transcriptId && transcript == None
    {
      this.transcriptId := transcriptId;
      transcript := None;
    }

    /** A transcript built from a response takes its id from the response. */
    constructor FromResponse(response: TranscriptResponse)
      ensures transcriptId == Some(response.id) && transcript == Some(response)
    {
      transcriptId := Some(response.id);
      transcript := Some(response);
    }

    /** The status of the held response; AttributeError when none is held. */
    function Status(): (r: Result<TranscriptStatus>)
      reads this
      ensures r.Ok? <==> transcript.Some?
      ensures r.Ok? ==> r.value == transcript.value.status
      ensures r.Raised? ==> r.exc == AttributeError
    {
      if transcript.None? then Raised(AttributeError) else Ok(transcript.value.status)
    }

    /** Polls until a completed or error status, consuming `polls` in order;
        `polled` is the number of polls used. */
    method WaitForCompletion(polls: seq<PollResult>) returns (polled: nat, end: WaitEnd)
      modifies this
      ensures Waited(transcript, polled, end) == Wait(old(transcript), polls)
    {
      var i := 0;
      while i < |polls|
        invariant 0 <= i <= |polls|
        invariant Wait(old(transcript), polls) ==
          var w := Wait(transcript, polls[i..]);
          w.(polled := i + w.polled)
        decreases |polls| - i
      {
        assert polls[i..][0] == polls[i] && polls[i..][1..] == polls[i + 1..];
        match polls[i] {
          case Fetched(response) =>
            transcript := Some(response);
          case PollFailed(text) =>
            if transcript.None? {
              return i + 1, WaitRaised(AttributeError);
            }
            transcript := Some(transcript.value.(status := Error, error := Some(text)));
        }
        i := i + 1;
        if IsSettled(transcript.value) {
          return i, Settled;
        }
      }
      return |polls|, StillPending;
    }
  }

  /** A group of transcripts, in the order they were added. */
  class TranscriptGroup {
    var transcripts: seq<Transcript>

    /** A group built from ids holds one new, not yet fetched transcript per id. */
    constructor(transcriptIds: seq<string>)
      ensures |transcripts| == |transcriptIds|
      ensures forall i :: 0 <= i < |transcriptIds| ==>
        transcripts[i].transcriptId == Some(transcriptIds[i]) && transcripts[i].transcript == None
      ensures TranscriptIds() == seq(|transcriptIds|, i requires 0 <= i < |transcriptIds| => Some(transcriptIds[i]))
    {
      transcripts := [];
      new;
      var i := 0;
      while i < |transcriptIds|
        invariant 0 <= i <= |transcriptIds|
        invariant |transcripts| == i
        invariant forall j :: 0 <= j < i ==>
          transcripts[j].transcriptId == Some(transcriptIds[j]) && transcripts[j].transcript == None
        invariant forall j :: 0 <= j < i ==> fresh(transcripts[j])
        decreases |transcriptIds| - i
      {
        var raised := AddTranscript(IdString(transcriptIds[i]));
        i := i + 1;
      }
    }

    /** The ids of the members, in insertion order. */
    function TranscriptIds(): (r: seq<Option<string>>)
      reads this
      ensures |r| == |transcripts|
      ensures forall i :: 0 <= i < |r| ==> r[i] == transcripts[i].transcriptId
    {
      seq(|transcripts|, i requires 0 <= i < |transcripts| reads this => transcripts[i].transcriptId)
    }

    /** Appends a transcript, or a new transcript for an id; any other
        argument raises TypeError and leaves the group as it was. */
    method AddTranscript(item: TranscriptItem) returns (raised: Option<Exception>)
      modifies this
      ensures item.OtherItem? ==> raised == Some(TypeError) && transcripts == old(transcripts)
      ensures item.Existing? ==> raised == None && transcripts == old(transcripts) + [item.transcript]
      ensures item.IdString? ==>
        raised == None && |transcripts| == |old(transcripts)| + 1 &&
        transcripts[..|old(transcripts)|] == old(transcripts) &&
        fresh(transcripts[|old(transcripts)|]) &&
        transcripts[|old(transcripts)|].transcriptId == Some(item.id) &&
        transcripts[|old(transcripts)|].transcript == None
      ensures !item.OtherItem? ==> TranscriptIds() == old(TranscriptIds()) + [transcripts[|transcripts| - 1].transcriptId]
    {
      match item
      case Existing(t) =>
        transcripts := transcripts + [t];
        raised := None;
      case IdString(id) =>
        var t := new Transcript(Some(id));
        transcripts := transcripts + [t];
        raised := None;
      case OtherItem =>
        raised := Some(TypeError);
    }

    /** The group status over the set of member statuses; reading the status
        of a member that holds no response raises AttributeError. */
    function Status(): (r: Result<TranscriptStatus>)
      reads this, transcripts
      ensures r.Raised? <==> exists i :: 0 <= i < |transcripts| && transcripts[i].transcript.None?
      ensures r.Raised? ==> r.exc == AttributeError
      ensures r.Ok? ==> r.value == GroupStatus(set t | t in transcripts :: t.transcript.value.status)
    {
      if exists i :: 0 <= i < |transcripts| && transcripts[i].transcript.None? then Raised(AttributeError)
      else Ok(GroupStatus(set t | t in transcripts :: t.transcript.value.status))
    }
  }
}

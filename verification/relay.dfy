/** The session registry of server.js and the socket handlers that change
    it: `register`, connection `close`, `set-language`, the audio messages
    with the synchronous part of `processAudioFile` and its continuation after
    the speech-to-text request, and `operator-reply`. Sockets are `Connection`
    objects; what the server writes to them is appended to `outbox`. */
module Relay {
  import opened JsText
  import opened Lang
  import opened Protocol
  import Reply

  /** A socket. Its identity is that of the `ws` object; `open` is
      `readyState === 1` and is changed by the environment, never here. */
  class Connection {
    var open: bool

    constructor (open: bool)
      ensures this.open == open
    {
      this.open := open;
    }
  }

  /** One entry of `calls`. `lastUpdated` is absent until a language is stored
      by the transcription pipeline. */
  datatype Session = Session(callerWs: Option<Connection>, operators: set<Connection>, buffer: seq<string>,
                             processing: bool, detectedLanguage: Option<string>, lastUpdated: Option<int>)

  /** The record `register` creates for an unseen call id. */
  const NewSession := Session(None, {}, [], false, None, None)

  /** One socket write: the message and the connections it reaches. */
  datatype Envelope = Envelope(to: set<Connection>, msg: Message)

  datatype Role = CallerRole | OperatorRole | OtherRole

  /** The `file` field of an audio message: its base64 text and the number of
      bytes `Buffer.from(file, 'base64')` decodes it to. */
  datatype Audio = Audio(base64: string, decodedLength: nat)

  /** The speech-to-text request: it threw, or it answered with `data.text`,
      which may be missing. */
  datatype Stt = SttFailed | SttText(text: Option<string>)

  datatype AudioOutcome =
    | Rejected        // the handler answered the sender with an error
    | Ignored         // no session: `processAudioFile` returns at once
    | Deferred        // the session is busy: retried later, nothing changes now
    | Dropped         // too little audio or an empty transcript: nothing is sent
    | ErrorBroadcast  // operators are told that transcription failed
    | Awaiting        // the speech-to-text request is in flight

  /** Decoded audio shorter than this is treated as noise. */
  const MinAudioBytes: nat := 200

  /** The operators a broadcast reaches: those whose socket is open. */
  ghost function OpenOperators(s: Session): set<Connection>
    reads s.operators
  {
    set op | op in s.operators && op.open
  }

  /** The caller a reply reaches: the caller socket, when there is one and it
      is open. */
  ghost function OpenCaller(s: Session): set<Connection>
    reads if s.callerWs.Some? then {s.callerWs.value} else {}
  {
    if s.callerWs.Some? && s.callerWs.value.open then {s.callerWs.value} else {}
  }

  /** The target selection of `broadcastToOperators`: walks the operator set
      and keeps exactly the open sockets. */
  method SelectTargets(s: Session) returns (targets: set<Connection>)
    ensures forall op :: op in targets <==> op in s.operators && op.open
  {
    targets := {};
    var rest := s.operators;
    while rest != {}
      invariant rest <= s.operators
      invariant forall op :: op in targets <==> op in s.operators && op !in rest && op.open
      decreases rest
    {
      var op :| op in rest;
      if op.open {
        targets := targets + {op};
      }
      rest := rest - {op};
    }
  }

  /** The checks of the `audio-chunk` handler, in order: the call id must name
      a session, then the message must carry non-empty audio. */
  function ChunkError(known: set<string>, callId: Option<string>, file: Option<Audio>): (err: Option<string>)
    ensures err == Some(UnknownCallId) <==> !Truthy(callId) || callId.value !in known
    ensures err == Some(NoAudioData) <==> Truthy(callId) && callId.value in known && (file.None? || file.value.base64 == "")
    ensures err.None? <==> Truthy(callId) && callId.value in known && file.Some? && file.value.base64 != ""
  {
    if !Truthy(callId) || callId.value !in known then Some(UnknownCallId)
    else if file.None? || file.value.base64 == "" then Some(NoAudioData)
    else None
  }

  /** `!transcription || transcription.trim().length === 0` */
  predicate BlankTranscript(stt: Stt): (blank: bool)
    ensures blank <==> stt.SttText? && (stt.text.None? || AllSpace(stt.text.value))
  {
    stt.SttText? && (!Truthy(stt.text) || Trim(stt.text.value) == "")
  }

  /** What a session looks like after connection `ws` closed: if `ws` was its
      caller, the caller slot and the language are cleared and `processing`
      is forced off; `ws` leaves the operator set; nothing else changes. */
  function Detach(s: Session, ws: Connection): (t: Session)
    ensures t.operators == s.operators - {ws}
    ensures t.callerWs == (if s.callerWs == Some(ws) then None else s.callerWs)
    ensures s.callerWs == Some(ws) ==> t.detectedLanguage == None && !t.processing
    ensures s.callerWs != Some(ws) ==> t.detectedLanguage == s.detectedLanguage && t.processing == s.processing
    ensures t.buffer == s.buffer && t.lastUpdated == s.lastUpdated
  {
    var t := if s.callerWs == Some(ws) then s.(callerWs := None, detectedLanguage := None, processing := false) else s;
    t.(operators := t.operators - {ws})
  }

  /** The `language-updated` notices a close sends: one per session, among
      `ids`, whose caller was `ws`, to that session's open operators. */
  ghost function CloseNotices(before: map<string, Session>, ws: Connection, ids: set<string>): set<Envelope>
    reads set id, op | id in ids && id in before && op in before[id].operators :: op
  {
    set id | id in ids && id in before && before[id].callerWs == Some(ws)
      :: Envelope(OpenOperators(before[id]), LanguageUpdated(id, None))
  }

  /** The synchronous part of `processAudioFile` up to its first `await`, as a
      relation between the registry before (`c0`, `p0`, `o0`) and after
      (`c1`, `p1`, `o1`). Without a session it does nothing; on a busy session
      it defers and changes nothing. Otherwise the flag is raised and, unless
      the request goes out, lowered again: a missing payload makes
      `Buffer.from` throw and the error is broadcast, a short payload is
      dropped silently. Only a sent request leaves the flag raised and one
      more continuation pending. */
  ghost predicate StartsAudio(c0: map<string, Session>, p0: multiset<string>, o0: seq<Envelope>,
                              c1: map<string, Session>, p1: multiset<string>, o1: seq<Envelope>,
                              id: string, decoded: Option<nat>, outcome: AudioOutcome)
    reads if id in c0 then c0[id].operators else {}
  {
    if id !in c0 then
      outcome == Ignored && c1 == c0 && p1 == p0 && o1 == o0
    else if c0[id].processing then
      outcome == Deferred && c1 == c0 && p1 == p0 && o1 == o0
    else if decoded.None? then
      && outcome == ErrorBroadcast && c1 == c0 && p1 == p0
      && o1 == o0 + [Envelope(OpenOperators(c0[id]), Error(TranscriptionFailed))]
    else if decoded.value < MinAudioBytes then
      outcome == Dropped && c1 == c0 && p1 == p0 && o1 == o0
    else
      && outcome == Awaiting && c1 == c0[id := c0[id].(processing := true)]
      && p1 == p0 + multiset{id} && o1 == o0
  }

  /** `processAudioFile` from the return of the speech-to-text request, with
      its `finally`, from registry state 1 to state 2: a blank transcript is
      dropped silently; a failed request, and every non-blank transcript (the
      undeclared `isSpam` throws), end in the error broadcast. Either way the
      flag is lowered and the run is no longer pending. */
  ghost predicate FinishesAudio(c1: map<string, Session>, p1: multiset<string>, o1: seq<Envelope>,
                                c2: map<string, Session>, p2: multiset<string>, o2: seq<Envelope>,
                                id: string, stt: Stt, outcome: AudioOutcome)
    reads if id in c1 then c1[id].operators else {}
  {
    && id in c1
    && c2 == c1[id := c1[id].(processing := false)] && p2 == p1 - multiset{id}
    && if BlankTranscript(stt) then outcome == Dropped && o2 == o1
       else outcome == ErrorBroadcast && o2 == o1 + [Envelope(OpenOperators(c1[id]), Error(TranscriptionFailed))]
  }

  /** A whole `processAudioFile` run from registry state 0 to state 1:
      `StartsAudio`, then, when the request was sent, the transcript `stt`
      decides between a silent drop and the error broadcast, and the flag
      raised for the request is lowered again. */
  ghost predicate RunsAudio(c0: map<string, Session>, p0: multiset<string>, o0: seq<Envelope>,
                            c1: map<string, Session>, p1: multiset<string>, o1: seq<Envelope>,
                            id: string, decoded: Option<nat>, stt: Stt, outcome: AudioOutcome)
    reads if id in c0 then c0[id].operators else {}
  {
    if id !in c0 || c0[id].processing || decoded.None? || decoded.value < MinAudioBytes then
      StartsAudio(c0, p0, o0, c1, p1, o1, id, decoded, outcome)
    else if BlankTranscript(stt) then
      outcome == Dropped && c1 == c0 && p1 == p0 && o1 == o0
    else
      && outcome == ErrorBroadcast && c1 == c0 && p1 == p0
      && o1 == o0 + [Envelope(OpenOperators(c0[id]), Error(TranscriptionFailed))]
  }

  /** A whole run leaves the sessions and the pending runs as they were: it
      defers exactly on a busy session, ignores exactly an unknown call, and
      sends at most the error notice to the session's open operators. */
  lemma WholeRun(c0: map<string, Session>, p0: multiset<string>, o0: seq<Envelope>,
                 c1: map<string, Session>, p1: multiset<string>, o1: seq<Envelope>,
                 id: string, decoded: Option<nat>, stt: Stt, outcome: AudioOutcome)
    requires RunsAudio(c0, p0, o0, c1, p1, o1, id, decoded, stt, outcome)
    ensures c1 == c0 && p1 == p0
    ensures outcome == Ignored <==> id !in c0
    ensures id in c0 ==> (outcome == Deferred <==> c0[id].processing)
    ensures outcome == Ignored || outcome == Deferred || outcome == Dropped || outcome == ErrorBroadcast
    ensures outcome != ErrorBroadcast ==> o1 == o0
    ensures outcome == ErrorBroadcast ==> o1 == o0 + [Envelope(OpenOperators(c0[id]), Error(TranscriptionFailed))]
  {
  }

  /** A run that sent its request and then finished is a whole run. */
  lemma RunComposes(c0: map<string, Session>, p0: multiset<string>, o0: seq<Envelope>,
                    c1: map<string, Session>, p1: multiset<string>, o1: seq<Envelope>,
                    c2: map<string, Session>, p2: multiset<string>, o2: seq<Envelope>,
                    id: string, decoded: Option<nat>, stt: Stt, outcome: AudioOutcome)
    requires StartsAudio(c0, p0, o0, c1, p1, o1, id, decoded, Awaiting)
    requires FinishesAudio(c1, p1, o1, c2, p2, o2, id, stt, outcome)
    ensures RunsAudio(c0, p0, o0, c2, p2, o2, id, decoded, stt, outcome)
  {
    LowerAfterRaise(c0, id);
    assert c1[id].operators == c0[id].operators;
  }

  /** A session as the registry may hold it: a null or code language, an
      empty buffer, and a raised `processing` flag only with a run pending. */
  ghost predicate GoodSession(s: Session, runs: nat)
  {
    IsLangState(s.detectedLanguage) && s.buffer == [] && (s.processing ==> runs > 0)
  }

  /** A message the registry may have sent as the source is written. */
  predicate Sendable(m: Message)
  {
    !m.Transcription? && !m.LanguageChanged?
  }

  /** The registry invariant on plain values; see `CallRegistry.Valid`. */
  ghost predicate Consistent(calls: map<string, Session>, pending: multiset<string>, outbox: seq<Envelope>)
  {
    && (forall id :: id in calls ==> GoodSession(calls[id], pending[id]))
    && (forall id :: id in pending ==> id in calls)
    && (forall i :: 0 <= i < |outbox| ==> Sendable(outbox[i].msg))
  }

  /** Storing a good session keeps the invariant. */
  lemma StoreKeeps(calls: map<string, Session>, pending: multiset<string>, outbox: seq<Envelope>, id: string, s: Session)
    requires Consistent(calls, pending, outbox) && GoodSession(s, pending[id])
    ensures Consistent(calls[id := s], pending, outbox)
  {
  }

  /** Sending a sendable message keeps the invariant. */
  lemma SendKeeps(calls: map<string, Session>, pending: multiset<string>, outbox: seq<Envelope>, e: Envelope)
    requires Consistent(calls, pending, outbox) && Sendable(e.msg)
    ensures Consistent(calls, pending, outbox + [e])
  {
  }

  /** Sending several sendable messages keeps the invariant. */
  lemma AppendKeeps(calls: map<string, Session>, pending: multiset<string>, outbox: seq<Envelope>, more: seq<Envelope>)
    requires forall id :: id in calls ==> GoodSession(calls[id], pending[id])
    requires forall id :: id in pending ==> id in calls
    requires forall i :: 0 <= i < |outbox| ==> Sendable(outbox[i].msg)
    requires forall i :: 0 <= i < |more| ==> Sendable(more[i].msg)
    ensures Consistent(calls, pending, outbox + more)
  {
    var all := outbox + more;
    forall i | 0 <= i < |all|
      ensures Sendable(all[i].msg)
    {
      if i >= |outbox| {
        assert all[i] == more[i - |outbox|];
      }
    }
  }

  /** Ending a pending run of `id` and lowering its flag keeps the invariant. */
  lemma FinishKeeps(calls: map<string, Session>, pending: multiset<string>, outbox: seq<Envelope>, id: string)
    requires Consistent(calls, pending, outbox) && id in pending
    ensures Consistent(calls[id := calls[id].(processing := false)], pending - multiset{id}, outbox)
  {
    var calls', pending' := calls[id := calls[id].(processing := false)], pending - multiset{id};
    forall k | k in calls'
      ensures GoodSession(calls'[k], pending'[k])
    {
      if k != id {
        assert pending'[k] == pending[k];
      }
    }
  }

  /** Raising the flag of an idle session and lowering it again gives the
      table back. */
  lemma LowerAfterRaise(calls: map<string, Session>, id: string)
    requires id in calls && !calls[id].processing
    ensures var raised := calls[id := calls[id].(processing := true)];
            raised[id := raised[id].(processing := false)] == calls
  {
    var raised := calls[id := calls[id].(processing := true)];
    assert raised[id].(processing := false) == calls[id];
  }

  /** `Detach` keeps a session good. */
  lemma DetachKeeps(s: Session, runs: nat, ws: Connection)
    requires GoodSession(s, runs)
    ensures GoodSession(Detach(s, ws), runs)
  {
  }

  /** The loop of the `close` handler over `Object.keys(calls)`, in some
      order: it detaches `ws` from every session and collects one
      `language-updated` notice per session whose caller `ws` was. The loop
      runs to completion before any other handler, so it works on a copy of
      the table, which `CallRegistry.Close` then stores. */
  method DetachAll(calls: map<string, Session>, ws: Connection) returns (table: map<string, Session>, notices: seq<Envelope>)
    ensures table.Keys == calls.Keys
    ensures forall id :: id in table ==> table[id] == Detach(calls[id], ws)
    ensures forall i :: 0 <= i < |notices| ==> notices[i].msg.LanguageUpdated? && notices[i].msg.detectedLanguage.None?
    ensures multiset(notices) == multiset(CloseNotices(calls, ws, calls.Keys))
  {
    table, notices := calls, [];
    var ids := calls.Keys;
    ghost var done: set<string> := {};
    assert table == Detached(calls, ws, done);
    while ids != {}
      invariant ids <= calls.Keys && done == calls.Keys - ids
      invariant table == Detached(calls, ws, done)
      invariant multiset(notices) == multiset(CloseNotices(calls, ws, done))
      decreases ids
    {
      var id :| id in ids;
      DetachedStep(calls, ws, done, id);
      table, notices := DetachStep(calls, ws, done, table, notices, id);
      ids := ids - {id};
      done := done + {id};
    }
    NoticesAreResets(calls, ws, notices);
  }

  /** Every close notice resets the language. */
  lemma NoticesAreResets(calls: map<string, Session>, ws: Connection, notices: seq<Envelope>)
    requires multiset(notices) == multiset(CloseNotices(calls, ws, calls.Keys))
    ensures forall i :: 0 <= i < |notices| ==> notices[i].msg.LanguageUpdated? && notices[i].msg.detectedLanguage.None?
  {
    forall i | 0 <= i < |notices|
      ensures notices[i].msg.LanguageUpdated? && notices[i].msg.detectedLanguage.None?
    {
      assert notices[i] in multiset(CloseNotices(calls, ws, calls.Keys));
    }
  }

  /** The table once the sessions in `done` have been detached from `ws`. */
  ghost function Detached(calls: map<string, Session>, ws: Connection, done: set<string>): map<string, Session>
  {
    map id | id in calls :: if id in done then Detach(calls[id], ws) else calls[id]
  }

  lemma DetachedStep(calls: map<string, Session>, ws: Connection, done: set<string>, id: string)
    requires id in calls && id !in done
    ensures Detached(calls, ws, done)[id := Detach(calls[id], ws)] == Detached(calls, ws, done + {id})
    ensures Detached(calls, ws, done)[id] == calls[id]
  {
  }

  /** One pass of the `close` loop, on session `id`. */
  method DetachStep(calls: map<string, Session>, ws: Connection, ghost done: set<string>,
                    table: map<string, Session>, notices: seq<Envelope>, id: string)
    returns (table': map<string, Session>, notices': seq<Envelope>)
    requires id in calls && id !in done && id in table && table[id] == calls[id]
    requires multiset(notices) == multiset(CloseNotices(calls, ws, done))
    ensures table' == table[id := Detach(calls[id], ws)]
    ensures multiset(notices') == multiset(CloseNotices(calls, ws, done + {id}))
  {
    var s := table[id];
    NoticeStep(calls, ws, done, id, notices);
    notices' := notices;
    if s.callerWs == Some(ws) {
      s := s.(callerWs := None, detectedLanguage := None, processing := false);
      var targets := SelectTargets(s);
      assert targets == OpenOperators(calls[id]);
      notices' := notices + [Envelope(targets, LanguageUpdated(id, None))];
    } else {
      assert notices + [] == notices;
    }
    if ws in s.operators {
      s := s.(operators := s.operators - {ws});
    } else {
      assert s.operators - {ws} == s.operators;
    }
    table' := table[id := s];
  }

  class CallRegistry {
    var calls: map<string, Session>
    var outbox: seq<Envelope>
    /** The call ids of `processAudioFile` runs suspended on the
        speech-to-text request, one entry per run. */
    var pending: multiset<string>

    /** Every stored language is null or a code, no session ever buffers
        audio, a raised `processing` flag always has a run behind it, and, as
        the source is written, no transcription or language-changed event is
        ever sent. */
    ghost predicate Valid()
      reads this
    {
      Consistent(calls, pending, outbox)
    }

    constructor ()
      ensures Valid() && calls == map[] && outbox == [] && pending == multiset{}
    {
      calls, outbox, pending := map[], [], multiset{};
    }

    /** `broadcastToOperators(id, msg)` */
    method Broadcast(id: string, msg: Message)
      requires Valid() && Sendable(msg)
      modifies this
      ensures Valid() && calls == old(calls) && pending == old(pending)
      ensures outbox == old(outbox) + if id in calls then [Envelope(OpenOperators(calls[id]), msg)] else []
    {
      if id in calls {
        var targets := SelectTargets(calls[id]);
        assert targets == OpenOperators(calls[id]);
        SendKeeps(calls, pending, outbox, Envelope(targets, msg));
        outbox := outbox + [Envelope(targets, msg)];
      }
    }

    /** `sendToCaller(id, msg)`: nothing is written without an open caller. */
    method SendToCaller(id: string, msg: Message)
      modifies this
      ensures calls == old(calls) && pending == old(pending)
      ensures outbox == old(outbox) + if id in calls && OpenCaller(calls[id]) != {} then [Envelope(OpenCaller(calls[id]), msg)] else []
    {
      if id in calls {
        var c := calls[id].callerWs;
        if c.Some? && c.value.open {
          outbox := outbox + [Envelope({c.value}, msg)];
        }
      }
    }

    /** The `register` handler. A missing call id is answered with an error
        and changes nothing. Otherwise the session is created if absent; a
        caller takes the caller slot, an operator joins the operator set and
        is told the current language, any other role changes nothing more. */
    method Register(ws: Connection, callId: Option<string>, role: Role)
      requires Valid()
      modifies this
      ensures Valid() && pending == old(pending)
      ensures !Truthy(callId) ==> calls == old(calls) && outbox == old(outbox) + [Envelope({ws}, Error(MissingCallId))]
      ensures Truthy(callId) ==>
                var id := callId.value;
                var s := if id in old(calls) then old(calls)[id] else NewSession;
                match role
                case CallerRole =>
                  calls == old(calls)[id := s.(callerWs := Some(ws))]
                  && outbox == old(outbox) + [Envelope({ws}, RegisteredCaller(id))]
                case OperatorRole =>
                  calls == old(calls)[id := s.(operators := s.operators + {ws})]
                  && outbox == old(outbox) + [Envelope({ws}, RegisteredOperator(id, s.detectedLanguage))]
                case OtherRole =>
                  calls == old(calls)[id := s] && outbox == old(outbox)
    {
      if !Truthy(callId) {
        outbox := outbox + [Envelope({ws}, Error(MissingCallId))];
        return;
      }
      var id := callId.value;
      var s := if id in calls then calls[id] else NewSession;
      var s', ack := s, [];
      match role {
        case CallerRole =>
          s', ack := s.(callerWs := Some(ws)), [Envelope({ws}, RegisteredCaller(id))];
        case OperatorRole =>
          s', ack := s.(operators := s.operators + {ws}), [Envelope({ws}, RegisteredOperator(id, s.detectedLanguage))];
        case OtherRole =>
      }
      StoreKeeps(calls, pending, outbox, id, s');
      AppendKeeps(calls[id := s'], pending, outbox, ack);
      calls := calls[id := s'];
      outbox := outbox + ack;
    }

    /** The `close` handler: every session is passed through `Detach`, no
        session appears or disappears, and exactly one `language-updated`
        notice with a null language goes out for each session whose caller
        was `ws`, to the operators open at the time. */
    method Close(ws: Connection)
      requires Valid() && !ws.open
      modifies this
      ensures Valid() && pending == old(pending)
      ensures calls.Keys == old(calls).Keys
      ensures forall id :: id in calls ==> calls[id] == Detach(old(calls)[id], ws)
      ensures |old(outbox)| <= |outbox| && outbox[..|old(outbox)|] == old(outbox)
      ensures multiset(outbox[|old(outbox)|..]) == multiset(old(CloseNotices(calls, ws, calls.Keys)))
    {
      var table, notices := DetachAll(calls, ws);
      forall id | id in table
        ensures GoodSession(table[id], pending[id])
      {
        DetachKeeps(calls[id], pending[id], ws);
      }
      AppendKeeps(table, pending, outbox, notices);
      calls, outbox := table, outbox + notices;
      assert outbox[|old(outbox)|..] == notices;
    }

    /** The `set-language` handler. An unknown or missing call id is ignored.
        Otherwise the normalised value is stored and broadcast, shown as
        `'unknown'` when it is null or empty. */
    method SetLanguage(callId: Option<string>, language: Option<string>)
      requires Valid()
      modifies this
      ensures Valid() && pending == old(pending)
      ensures !(Truthy(callId) && callId.value in old(calls)) ==> calls == old(calls) && outbox == old(outbox)
      ensures Truthy(callId) && callId.value in old(calls) ==>
                var id := callId.value;
                var language' := NormalizeLang(language);
                && calls == old(calls)[id := old(calls)[id].(detectedLanguage := language')]
                && outbox == old(outbox) + [Envelope(OpenOperators(old(calls)[id]), LanguageUpdated(id, Some(ShownLanguage(language'))))]
    {
      if !Truthy(callId) || callId.value !in calls {
        return;
      }
      var id := callId.value;
      var language' := NormalizeLang(language);
      calls := calls[id := calls[id].(detectedLanguage := language')];
      Broadcast(id, LanguageUpdated(id, Some(ShownLanguage(language'))));
    }

    /** `processAudioFile` up to the speech-to-text request; see `StartsAudio`. */
    method BeginAudio(id: string, decoded: Option<nat>) returns (outcome: AudioOutcome)
      requires Valid()
      modifies this
      ensures Valid()
      ensures StartsAudio(old(calls), old(pending), old(outbox), calls, pending, outbox, id, decoded, outcome)
    {
      if id !in calls {
        return Ignored;
      }
      if calls[id].processing {
        return Deferred;
      }
      // The flag is raised here and, on the two early exits, lowered by the
      // `finally` before anything else can run, so those paths leave it as it was.
      if decoded.None? {
        Broadcast(id, Error(TranscriptionFailed));
        return ErrorBroadcast;
      }
      if decoded.value < MinAudioBytes {
        return Dropped;
      }
      calls := calls[id := calls[id].(processing := true)];
      pending := pending + multiset{id};
      outcome := Awaiting;
    }

    /** `processAudioFile` after the speech-to-text request returns; see
        `FinishesAudio`. */
    method FinishAudio(id: string, stt: Stt) returns (outcome: AudioOutcome)
      requires Valid() && id in pending
      modifies this
      ensures Valid()
      ensures FinishesAudio(old(calls), old(pending), old(outbox), calls, pending, outbox, id, stt, outcome)
    {
      if BlankTranscript(stt) {
        outcome := Dropped;
      } else {
        Broadcast(id, Error(TranscriptionFailed));
        outcome := ErrorBroadcast;
      }
      Settle(id);
    }

    /** The `finally` of `processAudioFile`: the flag is lowered and the run
        is no longer pending. */
    method Settle(id: string)
      requires Valid() && id in pending
      modifies this
      ensures Valid() && outbox == old(outbox)
      ensures pending == old(pending) - multiset{id}
      ensures calls == old(calls)[id := old(calls)[id].(processing := false)]
    {
      FinishKeeps(calls, pending, outbox, id);
      calls := calls[id := calls[id].(processing := false)];
      pending := pending - multiset{id};
    }

    /** One whole `processAudioFile` run with nothing interleaved; see
        `RunsAudio` and `WholeRun`. */
    method ProcessAudio(id: string, decoded: Option<nat>, stt: Stt) returns (outcome: AudioOutcome)
      requires Valid()
      modifies this
      ensures Valid()
      ensures RunsAudio(old(calls), old(pending), old(outbox), calls, pending, outbox, id, decoded, stt, outcome)
    {
      outcome := BeginAudio(id, decoded);
      if outcome == Awaiting {
        ghost var c1, p1, o1 := calls, pending, outbox;
        outcome := FinishAudio(id, stt);
        RunComposes(old(calls), old(pending), old(outbox), c1, p1, o1, calls, pending, outbox, id, decoded, stt, outcome);
      }
    }

    /** The `audio-chunk` handler: `ChunkError` decides whether the sender
        gets an error; otherwise the run starts. */
    method AudioChunk(ws: Connection, callId: Option<string>, file: Option<Audio>) returns (outcome: AudioOutcome)
      requires Valid()
      modifies this
      ensures Valid()
      ensures var err := ChunkError(old(calls).Keys, callId, file);
              err.Some? ==> outcome == Rejected && calls == old(calls) && pending == old(pending)
                            && outbox == old(outbox) + [Envelope({ws}, Error(err.value))]
      ensures ChunkError(old(calls).Keys, callId, file).None? ==>
                StartsAudio(old(calls), old(pending), old(outbox), calls, pending, outbox,
                            callId.value, Some(file.value.decodedLength), outcome)
    {
      var err := ChunkError(calls.Keys, callId, file);
      if err.Some? {
        outbox := outbox + [Envelope({ws}, Error(err.value))];
        return Rejected;
      }
      outcome := BeginAudio(callId.value, Some(file.value.decodedLength));
    }

    /** The `audio-file` handler: only the call id is checked; a missing
        payload reaches `processAudioFile` and fails there. */
    method AudioFile(ws: Connection, callId: Option<string>, file: Option<Audio>) returns (outcome: AudioOutcome)
      requires Valid()
      modifies this
      ensures Valid()
      ensures !(Truthy(callId) && callId.value in old(calls)) ==>
                outcome == Rejected && calls == old(calls) && pending == old(pending)
                && outbox == old(outbox) + [Envelope({ws}, Error(UnknownCallId))]
      ensures Truthy(callId) && callId.value in old(calls) ==>
                StartsAudio(old(calls), old(pending), old(outbox), calls, pending, outbox, callId.value,
                            if file.Some? then Some(file.value.decodedLength) else None, outcome)
    {
      if !Truthy(callId) || callId.value !in calls {
        outbox := outbox + [Envelope({ws}, Error(UnknownCallId))];
        return Rejected;
      }
      outcome := BeginAudio(callId.value, if file.Some? then Some(file.value.decodedLength) else None);
    }

    /** The `operator-reply` handler: an unknown call id is answered with an
        error; otherwise `Reply.ReplyToCaller` decides the message, which
        reaches only the session's open caller and changes no session. */
    method RelayReply(ws: Connection, callId: Option<string>, text: string,
                      translation: Reply.Translation, tts: string -> Reply.Speech)
      requires Valid()
      modifies this
      ensures Valid() && calls == old(calls) && pending == old(pending)
      ensures !(Truthy(callId) && callId.value in calls) ==> outbox == old(outbox) + [Envelope({ws}, Error(UnknownCallId))]
      ensures Truthy(callId) && callId.value in calls ==>
                var s := calls[callId.value];
                var m := Reply.ReplyToCaller(s.detectedLanguage, text, translation, tts);
                outbox == old(outbox) + if OpenCaller(s) != {} then [Envelope(OpenCaller(s), m)] else []
    {
      if !Truthy(callId) || callId.value !in calls {
        outbox := outbox + [Envelope({ws}, Error(UnknownCallId))];
        return;
      }
      var id := callId.value;
      var m := Reply.ReplyToCaller(calls[id].detectedLanguage, text, translation, tts);
      SendToCaller(id, m);
    }
  }

  /** One pass of the `close` loop adds to the notices sent so far exactly
      the notice `CloseNotices` gains from one more session. */
  lemma NoticeStep(before: map<string, Session>, ws: Connection, done: set<string>, id: string, notices: seq<Envelope>)
    requires id in before && id !in done
    requires multiset(notices) == multiset(CloseNotices(before, ws, done))
    ensures var step := if before[id].callerWs == Some(ws)
                        then [Envelope(OpenOperators(before[id]), LanguageUpdated(id, None))] else [];
            multiset(notices + step) == multiset(CloseNotices(before, ws, done + {id}))
  {
    if before[id].callerWs == Some(ws) {
      NoticeAdded(before, ws, done, id);
    } else {
      assert CloseNotices(before, ws, done + {id}) == CloseNotices(before, ws, done);
    }
  }

  /** Adding a session whose caller was `ws` adds exactly its own notice,
      which no other session's notice equals. */
  lemma NoticeAdded(before: map<string, Session>, ws: Connection, done: set<string>, id: string)
    requires id in before && id !in done && before[id].callerWs == Some(ws)
    ensures var e := Envelope(OpenOperators(before[id]), LanguageUpdated(id, None));
            && e !in CloseNotices(before, ws, done)
            && CloseNotices(before, ws, done + {id}) == CloseNotices(before, ws, done) + {e}
  {
  }

  /** As written, `close` lowers the flag of a session whose run is still
      waiting for its transcript. A caller that reconnects and sends audio
      at once starts a second run on the same call, so two runs of one call
      are in flight together although the flag is meant to allow one. */
  method CloseDuringTranscription() returns (inFlight: nat)
    ensures inFlight == 2
  {
    var registry := new CallRegistry();
    var caller := new Connection(true);
    registry.Register(caller, Some("123"), CallerRole);
    var first := registry.BeginAudio("123", Some(4000));
    assert first == Awaiting;
    caller.open := false;
    registry.Close(caller);
    var again := new Connection(true);
    registry.Register(again, Some("123"), CallerRole);
    var second := registry.BeginAudio("123", Some(4000));
    assert second == Awaiting;
    inFlight := registry.pending["123"];
  }
}

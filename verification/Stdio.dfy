/**
 * The stdio session's bookkeeping of requests: what a proxy has sent and not seen answered, and what
 * is replayed first to whoever serves next.
 */
module Stdio {
  import opened Prelude

  /** A JSON-RPC id, as its text. */
  type RpcId = string

  /**
   * What JSON parsing says of a line: the id of a request (a line with a method and an id; a
   * notification has none), and the id a response line carries.
   */
  datatype Json = Json(requestId: string -> Option<RpcId>, responseId: string -> Option<RpcId>)

  datatype Pending = Pending(id: RpcId, line: string)

  function Sent(j: Json, pending: seq<Pending>, line: string): seq<Pending> {
    match j.requestId(line)
    case Some(id) => pending + [Pending(id, line)]
    case None => pending
  }

  /** Pending requests but those with the given id. */
  function WithoutId(pending: seq<Pending>, id: RpcId): seq<Pending> {
    if pending == [] then []
    else if pending[0].id == id then WithoutId(pending[1..], id)
    else [pending[0]] + WithoutId(pending[1..], id)
  }

  function Answered(j: Json, pending: seq<Pending>, response: string): seq<Pending> {
    match j.responseId(response)
    case Some(id) => WithoutId(pending, id)
    case None => pending
  }

  function LinesOf(pending: seq<Pending>): seq<string> {
    if pending == [] then [] else [pending[0].line] + LinesOf(pending[1..])
  }

  /** Each entry is the request its line holds. */
  predicate Requests(j: Json, pending: seq<Pending>) {
    forall i :: 0 <= i < |pending| ==> j.requestId(pending[i].line) == Some(pending[i].id)
  }

  predicate HasId(pending: seq<Pending>, id: RpcId) {
    exists i :: 0 <= i < |pending| && pending[i].id == id
  }

  predicate DistinctIds(pending: seq<Pending>) {
    forall i, j :: 0 <= i < j < |pending| ==> pending[i].id != pending[j].id
  }

  // -------------------------------------------------------------------------
  // The list as an object
  // -------------------------------------------------------------------------

  class InFlight {
    const json: Json
    var pending: seq<Pending>

    constructor (json: Json)
      ensures this.json == json && pending == []
    {
      this.json, this.pending := json, [];
    }

    method MarkSent(line: string)
      modifies this
      ensures pending == Sent(json, old(pending), line)
    {
      var id := json.requestId(line);
      if id.Some? {
        pending := pending + [Pending(id.value, line)];
      }
    }

    /** Keep only the entries whose id is not the response's. */
    method MarkAnswered(response: string)
      modifies this
      ensures pending == Answered(json, old(pending), response)
    {
      var id := json.responseId(response);
      if id.None? {
        return;
      }
      var kept: seq<Pending>, i := [], 0;
      assert pending[0..] == pending;
      while i < |pending|
        invariant 0 <= i <= |pending| && pending == old(pending)
        invariant kept + WithoutId(pending[i..], id.value) == WithoutId(pending, id.value)
      {
        assert pending[i..][1..] == pending[i + 1..];
        if pending[i].id != id.value {
          assert kept + ([pending[i]] + WithoutId(pending[i + 1..], id.value))
            == kept + [pending[i]] + WithoutId(pending[i + 1..], id.value);
          kept := kept + [pending[i]];
        }
        i := i + 1;
      }
      assert kept + [] == kept;
      pending := kept;
    }

    /** Hand over the lines of everything outstanding, in order, and start empty. */
    method Drain() returns (lines: seq<string>)
      modifies this
      ensures lines == LinesOf(old(pending)) && pending == []
    {
      lines := [];
      var i := 0;
      assert pending[0..] == pending;
      while i < |pending|
        invariant 0 <= i <= |pending| && pending == old(pending)
        invariant lines + LinesOf(pending[i..]) == LinesOf(pending)
      {
        assert pending[i..][1..] == pending[i + 1..];
        assert lines + ([pending[i].line] + LinesOf(pending[i + 1..]))
          == lines + [pending[i].line] + LinesOf(pending[i + 1..]);
        lines := lines + [pending[i].line];
        i := i + 1;
      }
      assert lines + [] == lines;
      pending := [];
    }

    /** Send a replay list first, marking each line before writing it; stops at a write that fails. */
    method Resend(replay: seq<string>, writable: nat) returns (sent: nat)
      modifies this
      ensures sent <= |replay| && (writable >= |replay| ==> sent == |replay|)
      ensures writable < |replay| ==> sent == writable + 1
      ensures pending == old(pending) + Wanted(json, replay[..sent])
    {
      sent := 0;
      NothingWanted(json, replay, pending);
      while sent < |replay|
        invariant sent <= |replay| && sent <= writable
        invariant pending == old(pending) + Wanted(json, replay[..sent])
      {
        WantedOneMore(json, replay, sent, old(pending));
        MarkSent(replay[sent]);
        sent := sent + 1;
        if sent > writable {
          return;
        }
      }
    }
  }

  /** The requests among some lines. */
  function Wanted(j: Json, lines: seq<string>): seq<Pending> {
    if lines == [] then [] else Sent(j, Wanted(j, lines[..|lines| - 1]), lines[|lines| - 1])
  }

  lemma NothingWanted(j: Json, lines: seq<string>, pending: seq<Pending>)
    ensures pending + Wanted(j, lines[..0]) == pending
  {
    assert lines[..0] == [];
  }

  lemma WantedOneMore(j: Json, lines: seq<string>, k: nat, before: seq<Pending>)
    requires k < |lines|
    ensures Sent(j, before + Wanted(j, lines[..k]), lines[k]) == before + Wanted(j, lines[..k + 1])
  {
    var more := lines[..k + 1];
    assert more[..|more| - 1] == lines[..k] && more[|more| - 1] == lines[k];
    assert Wanted(j, more) == Sent(j, Wanted(j, lines[..k]), lines[k]);
  }

  // -------------------------------------------------------------------------
  // The session as a state machine
  // -------------------------------------------------------------------------

  /** What passes between client and servers: lines from the client, responses to it. */
  datatype Event = FromClient(line: string) | ToClient(response: string)

  function Observe(j: Json, before: seq<Pending>, e: Event): seq<Pending> {
    match e
    case FromClient(line) => Sent(j, before, line)
    case ToClient(response) => Answered(j, before, response)
  }

  /** The requests the client has sent and not seen answered, in the order it sent them. */
  function Outstanding(j: Json, history: seq<Event>): seq<Pending> {
    if history == [] then [] else Observe(j, Outstanding(j, history[..|history| - 1]), history[|history| - 1])
  }

  datatype Mode = Between | Proxied | Embedded

  /** `pending` is the proxy's list, `replay` what the next or current server is still to be sent first. */
  datatype Session = Session(mode: Mode, pending: seq<Pending>, replay: seq<Pending>, history: seq<Event>)

  const START := Session(Between, [], [], [])

  datatype Move =
    | Connect
    | ReplayOne
    | Forward(line: string)
    | Respond(response: string)
    | DaemonDies
    | GoEmbedded
    | ServeReplayed(response: string)
    | ServeLine(line: string, response: string)
    | Yield

  /**
   * What can happen when. A client does not reuse the id of an outstanding request; a server answers
   * only what it was sent; a daemon's death does not cut a replay short.
   */
  predicate Possible(j: Json, s: Session, m: Move) {
    match m
    case Connect => s.mode == Between
    case ReplayOne => s.mode == Proxied && s.replay != []
    case Forward(line) => s.mode == Proxied && s.replay == [] && NewRequest(j, s, line)
    case Respond(response) => s.mode == Proxied
      && (j.responseId(response).Some? ==> !HasId(s.replay, j.responseId(response).value))
    case DaemonDies => s.mode == Proxied && s.replay == []
    case GoEmbedded => s.mode == Between
    case ServeReplayed(response) =>
      s.mode == Embedded && s.replay != [] && j.responseId(response) == Some(s.replay[0].id)
    case ServeLine(line, response) =>
      s.mode == Embedded && s.replay == [] && (j.requestId(line).Some? ==> j.responseId(response) == j.requestId(line))
    case Yield => s.mode == Embedded && s.replay == []
  }

  predicate NewRequest(j: Json, s: Session, line: string) {
    j.requestId(line).Some? ==> !HasId(Outstanding(j, s.history), j.requestId(line).value)
  }

  function After(j: Json, s: Session, m: Move): Session
    requires Possible(j, s, m)
  {
    match m
    case Connect => s.(mode := Proxied, pending := [])
    case ReplayOne => s.(pending := Sent(j, s.pending, s.replay[0].line), replay := s.replay[1..])
    case Forward(line) => s.(pending := Sent(j, s.pending, line), history := s.history + [FromClient(line)])
    case Respond(response) =>
      s.(pending := Answered(j, s.pending, response), history := s.history + [ToClient(response)])
    case DaemonDies => Session(Between, [], s.pending, s.history)
    case GoEmbedded => s.(mode := Embedded)
    case ServeReplayed(response) => s.(replay := s.replay[1..], history := s.history + [ToClient(response)])
    case ServeLine(line, response) =>
      s.(history := s.history +
           if j.requestId(line).Some? then [FromClient(line), ToClient(response)] else [FromClient(line)])
    case Yield => s.(mode := Between)
  }

  /** Everything outstanding is either on the proxy's list or about to be replayed, in the client's order. */
  predicate Tracked(j: Json, s: Session) {
    && s.pending + s.replay == Outstanding(j, s.history)
    && Requests(j, s.pending + s.replay) && DistinctIds(s.pending + s.replay)
    && (s.mode != Proxied ==> s.pending == [])
  }

  lemma {:induction false} WithoutIdFacts(pending: seq<Pending>, id: RpcId)
    ensures forall p :: p in WithoutId(pending, id) ==> p in pending && p.id != id
    ensures !HasId(pending, id) ==> WithoutId(pending, id) == pending
  {
    if pending != [] {
      WithoutIdFacts(pending[1..], id);
      if !HasId(pending, id) {
        assert forall i :: 0 <= i < |pending[1..]| ==> pending[1..][i] == pending[i + 1];
        assert !HasId(pending[1..], id);
        assert pending == [pending[0]] + pending[1..];
      }
    }
  }

  lemma {:induction false} WithoutIdSplits(a: seq<Pending>, b: seq<Pending>, id: RpcId)
    ensures WithoutId(a + b, id) == WithoutId(a, id) + WithoutId(b, id)
  {
    if a == [] {
      assert a + b == b;
    } else {
      assert (a + b)[1..] == a[1..] + b;
      WithoutIdSplits(a[1..], b, id);
    }
  }

  lemma {:induction false} WithoutIdKeeps(j: Json, pending: seq<Pending>, id: RpcId)
    requires Requests(j, pending) && DistinctIds(pending)
    ensures Requests(j, WithoutId(pending, id)) && DistinctIds(WithoutId(pending, id))
  {
    if pending != [] {
      var rest := pending[1..];
      assert forall i :: 0 <= i < |rest| ==> rest[i] == pending[i + 1];
      WithoutIdKeeps(j, rest, id);
      WithoutIdFacts(rest, id);
      if pending[0].id != id {
        var kept := WithoutId(rest, id);
        forall i | 0 <= i < |kept| ensures pending[0].id != kept[i].id {
          assert kept[i] in rest;
        }
      }
    }
  }

  lemma HistoryOneMore(j: Json, history: seq<Event>, e: Event)
    ensures Outstanding(j, history + [e]) == Observe(j, Outstanding(j, history), e)
  {
    assert (history + [e])[..|history|] == history;
  }

  lemma ReplayKeepsTracked(j: Json, s: Session)
    requires Tracked(j, s) && Possible(j, s, ReplayOne)
    ensures Tracked(j, After(j, s, ReplayOne))
  {
    var s' := After(j, s, ReplayOne);
    assert (s.pending + s.replay)[|s.pending|] == s.replay[0];
    assert s.pending + [s.replay[0]] + s.replay[1..] == s.pending + s.replay;
    assert s'.pending == s.pending + [s.replay[0]];
  }

  lemma ForwardKeepsTracked(j: Json, s: Session, line: string)
    requires Tracked(j, s) && Possible(j, s, Forward(line))
    ensures Tracked(j, After(j, s, Forward(line)))
  {
    HistoryOneMore(j, s.history, FromClient(line));
    var s' := After(j, s, Forward(line));
    assert s.pending + [] == s.pending && s'.pending + [] == s'.pending;
  }

  lemma RespondKeepsTracked(j: Json, s: Session, response: string)
    requires Tracked(j, s) && Possible(j, s, Respond(response))
    ensures Tracked(j, After(j, s, Respond(response)))
  {
    hide Requests, DistinctIds, HasId;
    HistoryOneMore(j, s.history, ToClient(response));
    if j.responseId(response).Some? {
      var id := j.responseId(response).value;
      WithoutIdSplits(s.pending, s.replay, id);
      WithoutIdFacts(s.replay, id);
      WithoutIdKeeps(j, s.pending + s.replay, id);
    }
  }

  /** Answering the first of distinct requests leaves the others. */
  lemma ServedFirst(j: Json, replay: seq<Pending>)
    requires replay != [] && Requests(j, replay) && DistinctIds(replay)
    ensures WithoutId(replay, replay[0].id) == replay[1..]
    ensures Requests(j, replay[1..]) && DistinctIds(replay[1..])
  {
    assert forall i :: 0 <= i < |replay[1..]| ==> replay[1..][i] == replay[i + 1];
    WithoutIdFacts(replay[1..], replay[0].id);
  }

  lemma ServedKeepsTracked(j: Json, s: Session, response: string)
    requires Tracked(j, s) && Possible(j, s, ServeReplayed(response))
    ensures Tracked(j, After(j, s, ServeReplayed(response)))
  {
    hide Requests, DistinctIds;
    assert s.pending + s.replay == s.replay && s.pending + s.replay[1..] == s.replay[1..];
    HistoryOneMore(j, s.history, ToClient(response));
    ServedFirst(j, s.replay);
  }

  /** The embedded core answers a request before it reads the next line. */
  lemma ServedAtOnce(j: Json, history: seq<Event>, line: string, response: string)
    requires Outstanding(j, history) == []
    requires j.requestId(line).Some? ==> j.responseId(response) == j.requestId(line)
    ensures Outstanding(j, history +
              if j.requestId(line).Some? then [FromClient(line), ToClient(response)] else [FromClient(line)]) == []
  {
    hide Outstanding;
    HistoryOneMore(j, history, FromClient(line));
    if j.requestId(line).Some? {
      var id := j.requestId(line).value;
      HistoryOneMore(j, history + [FromClient(line)], ToClient(response));
      assert history + [FromClient(line)] + [ToClient(response)] == history + [FromClient(line), ToClient(response)];
      assert [] + [Pending(id, line)] == [Pending(id, line)] && [Pending(id, line)][1..] == [];
      assert WithoutId([Pending(id, line)], id) == [];
    }
  }

  lemma MoveKeepsTracked(j: Json, s: Session, m: Move)
    requires Tracked(j, s) && Possible(j, s, m)
    ensures Tracked(j, After(j, s, m))
  {
    hide Requests, DistinctIds, HasId, Outstanding, Sent, Answered;
    match m
    case ReplayOne => ReplayKeepsTracked(j, s);
    case Forward(line) => ForwardKeepsTracked(j, s, line);
    case Respond(response) => RespondKeepsTracked(j, s, response);
    case ServeReplayed(response) => ServedKeepsTracked(j, s, response);
    case ServeLine(line, response) => ServedAtOnce(j, s.history, line, response);
    case DaemonDies => assert s.pending + s.replay == s.pending && [] + s.pending == s.pending;
    case _ =>
  }

  predicate PossibleRun(j: Json, s: Session, moves: seq<Move>)
    decreases |moves|
  {
    moves == [] || (Possible(j, s, moves[0]) && PossibleRun(j, After(j, s, moves[0]), moves[1..]))
  }

  function RunOf(j: Json, s: Session, moves: seq<Move>): Session
    requires PossibleRun(j, s, moves)
    decreases |moves|
  {
    if moves == [] then s else RunOf(j, After(j, s, moves[0]), moves[1..])
  }

  lemma {:induction false} RunKeepsTracked(j: Json, s: Session, moves: seq<Move>)
    requires Tracked(j, s) && PossibleRun(j, s, moves)
    ensures Tracked(j, RunOf(j, s, moves))
    decreases |moves|
  {
    hide Tracked, Possible, After;
    if moves != [] {
      MoveKeepsTracked(j, s, moves[0]);
      RunKeepsTracked(j, After(j, s, moves[0]), moves[1..]);
    }
  }

  /**
   * Over any sequence of daemon deaths and embedded takeovers no request is lost or reordered: what the
   * proxy holds, followed by what is still to be replayed, is at every moment exactly the client's
   * unanswered requests in the order it sent them; and when a daemon dies exactly those are replayed next.
   */
  lemma NothingIsLost(j: Json, moves: seq<Move>)
    requires PossibleRun(j, START, moves)
    ensures var s := RunOf(j, START, moves);
      && s.pending + s.replay == Outstanding(j, s.history)
      && (Possible(j, s, DaemonDies) ==> After(j, s, DaemonDies).replay == Outstanding(j, s.history))
      && (s.mode == Between ==> s.replay == Outstanding(j, s.history))
  {
    RunKeepsTracked(j, START, moves);
    var s := RunOf(j, START, moves);
    assert s.pending + [] == s.pending && [] + s.replay == s.replay;
  }

  /**
   * A daemon that dies during the replay takes the unsent rest with it: the list handed on is still
   * everything outstanding exactly when the line whose write failed was the last one.
   */
  lemma CutReplayLoses(j: Json, s: Session)
    requires Tracked(j, s) && s.mode == Proxied && s.replay != []
    ensures Sent(j, s.pending, s.replay[0].line) == Outstanding(j, s.history) <==> |s.replay| == 1
  {
    assert (s.pending + s.replay)[|s.pending|] == s.replay[0];
    assert Sent(j, s.pending, s.replay[0].line) == s.pending + [s.replay[0]];
    if |s.replay| == 1 {
      assert s.replay == [s.replay[0]];
    } else {
      assert |s.pending + s.replay| > |s.pending| + 1;
    }
  }
}

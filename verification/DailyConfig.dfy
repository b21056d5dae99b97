/**
 The configuration server of agent/v1_daily_config_ipc.cpp, shared under a lock
 between its pipe thread and the host loop of agent/v1_presence_agent.cpp. Every
 locked section is one step; the two threads may interleave in any order.
 */
module DailyConfig {
  import opened Words

  const REQUEST_MAGIC: uint32 := 0x31434C4E
  const REQUEST_BYTES: uint32 := 28
  const LOWEST_QUALITY: uint32 := 2 // HQ, SQ and MQ are 0, 1 and 2

  type Quality = x: uint32 | x <= LOWEST_QUALITY

  const ERROR_SUCCESS: uint32 := 0
  const ERROR_FILE_NOT_FOUND: uint32 := 2
  const ERROR_INVALID_DATA: uint32 := 13
  const ERROR_REVISION_MISMATCH: uint32 := 1306

  datatype Request = Request(
    magic: uint32,
    version: uint16,
    messageType: uint16,
    messageBytes: uint32,
    revision: uint64,
    quality: uint32,
    reserved: uint32)

  datatype Status = Accepted | Invalid | StaleRevision | Error

  datatype Response = Response(status: Status, requestedRevision: uint64, appliedRevision: uint64, error: uint32)

  /** How the write of an accepted request to its file turned out. */
  datatype Persistence = Persisted | PersistFailed(error: uint32)

  /** How opening and reading that file at a start turns out. */
  datatype Reading = Reads | CannotOpen(error: uint32) | ReadsShort

  datatype Server = Server(
    requested: Request,
    applied: Request,
    pending: Request,
    pendingAvailable: bool,
    rejectedCount: uint32,
    lastError: uint32,
    file: Option<Request>)

  predicate ValidRequest(r: Request) {
    && r.magic == REQUEST_MAGIC && r.version == 1 && r.messageType == 1 && r.messageBytes == REQUEST_BYTES
    && r.revision != 0 && r.quality <= LOWEST_QUALITY && r.reserved == 0
  }

  function Blank(revision: uint64, quality: uint32): Request {
    Request(REQUEST_MAGIC, 1, 1, REQUEST_BYTES, revision, quality, 0)
  }

  /** Only revision and quality are free: every other field of a valid request is fixed. */
  lemma ValidRequestsAreBlanks(r: Request)
    ensures ValidRequest(r) <==> r.revision != 0 && r.quality in {0, 1, 2} && r == Blank(r.revision, r.quality)
  {
  }

  // ------------------------------------------------ the server, as functions

  predicate Loads(file: Option<Request>, reading: Reading) {
    file.Some? && reading.Reads? && ValidRequest(file.value)
  }

  function LoadError(file: Option<Request>, reading: Reading): uint32 {
    if Loads(file, reading) then ERROR_SUCCESS
    else if reading.CannotOpen? then reading.error
    else if file.None? then ERROR_FILE_NOT_FOUND else ERROR_INVALID_DATA
  }

  /** A start reads the file back; without one, or with one it cannot use, it falls back to the default. */
  function Started(file: Option<Request>, reading: Reading, quality: Quality, revision: uint64): Server {
    var initial := if Loads(file, reading) then file.value else Blank(revision, quality);
    var error := LoadError(file, reading);
    Server(initial, initial, Blank(0, 0), false, 0,
           if error == ERROR_FILE_NOT_FOUND then ERROR_SUCCESS else error, file)
  }

  predicate Accepts(s: Server, r: Request, persistence: Persistence) {
    ValidRequest(r) && r.revision > s.requested.revision && persistence.Persisted?
  }

  function Reject(s: Server, error: uint32): Server {
    s.(rejectedCount := (s.rejectedCount + 1) % 0x1_0000_0000, lastError := error)
  }

  function Handle(s: Server, r: Request, persistence: Persistence): (Server, Response) {
    if !ValidRequest(r) then
      (Reject(s, ERROR_INVALID_DATA), Response(Invalid, r.revision, s.applied.revision, ERROR_INVALID_DATA))
    else if r.revision <= s.requested.revision then
      (Reject(s, ERROR_REVISION_MISMATCH),
       Response(StaleRevision, r.revision, s.applied.revision, ERROR_REVISION_MISMATCH))
    else if persistence.PersistFailed? then
      (Reject(s, persistence.error), Response(Error, r.revision, s.applied.revision, persistence.error))
    else
      (s.(requested := r, pending := r, pendingAvailable := true, lastError := ERROR_SUCCESS, file := Some(r)),
       Response(Accepted, r.revision, s.applied.revision, ERROR_SUCCESS))
  }

  function Take(s: Server): (Server, Option<Request>) {
    if s.pendingAvailable then (s.(pendingAvailable := false), Some(s.pending)) else (s, None)
  }

  function Mark(s: Server, revision: uint64): (Server, bool) {
    if revision != s.requested.revision then (s, false) else (s.(applied := s.requested), true)
  }

  // ------------------------------------------- the host loop, one lock at a time

  /** Where the host stands: four separate reads at startup, then take and mark in turn. */
  datatype HostAt = ReadRequestedQuality | ReadAppliedQuality | ReadRequestedRevision | ReadAppliedRevision
                  | BeforeTake | BeforeMark
  {
    predicate InLoop() {
      this == BeforeTake || this == BeforeMark
    }
  }

  datatype Host = Host(
    at: HostAt,
    requestedQuality: uint32,
    requestedRevision: uint64,
    appliedQuality: uint32,
    appliedRevision: uint64)

  const NEW_HOST := Host(ReadRequestedQuality, 0, 0, 0, 0)

  datatype System = System(server: Server, host: Host)

  predicate Marks(h: Host, engineActive: bool) {
    !engineActive && h.appliedRevision != h.requestedRevision
  }

  function Advanced(sys: System, engineActive: bool): System {
    var s, h := sys.server, sys.host;
    match h.at
    case ReadRequestedQuality => System(s, h.(requestedQuality := s.requested.quality, at := ReadAppliedQuality))
    case ReadAppliedQuality => System(s, h.(appliedQuality := s.applied.quality, at := ReadRequestedRevision))
    case ReadRequestedRevision => System(s, h.(requestedRevision := s.requested.revision, at := ReadAppliedRevision))
    case ReadAppliedRevision => System(s, h.(appliedRevision := s.applied.revision, at := BeforeTake))
    case BeforeTake =>
      var (next, accepted) := Take(s);
      if accepted.Some? then
        System(next, h.(requestedQuality := accepted.value.quality, requestedRevision := accepted.value.revision,
                        at := BeforeMark))
      else System(next, h.(at := BeforeMark))
    case BeforeMark =>
      if !Marks(h, engineActive) then System(s, h.(at := BeforeTake))
      else
        var (next, ok) := Mark(s, h.requestedRevision);
        if ok then
          System(next, h.(appliedQuality := h.requestedQuality, appliedRevision := h.requestedRevision,
                          at := BeforeTake))
        else System(next, h.(at := BeforeTake))
  }

  /**
   A step of the whole: a request on the pipe, a move of the host, a restart, or a
   death between writing the file and accepting the request.
   */
  datatype Step =
    | PipeRequest(request: Request, persistence: Persistence)
    | HostMoves(engineActive: bool)
    | Restart(reading: Reading, quality: Quality)
    | DiesAfterPersisting(orphan: Request, rereading: Reading, fallback: Quality)

  function Next(sys: System, step: Step): System {
    match step
    case PipeRequest(r, persistence) => sys.(server := Handle(sys.server, r, persistence).0)
    case HostMoves(engineActive) => Advanced(sys, engineActive)
    case Restart(reading, quality) => Boot(sys.server.file, reading, quality)
    case DiesAfterPersisting(r, reading, quality) =>
      var file := if Accepts(sys.server, r, Persisted) then Some(r) else sys.server.file;
      Boot(file, reading, quality)
  }

  function Run(sys: System, steps: seq<Step>): System
    decreases steps
  {
    if steps == [] then sys else Run(Next(sys, steps[0]), steps[1..])
  }

  /** The host starts its server with revision zero as the default. */
  function Boot(file: Option<Request>, reading: Reading, quality: Quality): System {
    System(Started(file, reading, quality, 0), NEW_HOST)
  }

  // --------------------------------------------------------- the invariant

  ghost predicate ServerKept(s: Server) {
    && s.applied.revision <= s.requested.revision
    && (s.applied.revision == s.requested.revision ==> s.applied == s.requested)
    && (s.pendingAvailable ==> s.pending == s.requested)
    && (s.requested.revision != 0 ==> s.file == Some(s.requested) && ValidRequest(s.requested))
    && s.requested.quality <= LOWEST_QUALITY && s.applied.quality <= LOWEST_QUALITY
  }

  /** What the host knows at each point, torn startup reads included: anything it may have missed is still pending. */
  ghost predicate HostKept(sys: System) {
    var s, h := sys.server, sys.host;
    && (h.at == ReadRequestedQuality || s.pendingAvailable || h.requestedQuality == s.requested.quality)
    && (h.at == ReadRequestedQuality || h.at == ReadAppliedQuality || h.appliedQuality == s.applied.quality)
    && (h.at == ReadAppliedRevision || h.at.InLoop() ==>
          && s.applied.revision <= h.requestedRevision <= s.requested.revision
          && (s.pendingAvailable || h.requestedRevision == s.requested.revision))
    && (h.at.InLoop() ==> h.appliedRevision == s.applied.revision)
    && (h.at == BeforeMark && h.requestedRevision == s.requested.revision ==>
          h.requestedQuality == s.requested.quality)
  }

  ghost predicate Kept(sys: System) {
    ServerKept(sys.server) && HostKept(sys)
  }

  lemma StepKeeps(sys: System, step: Step)
    requires Kept(sys)
    ensures Kept(Next(sys, step))
  {
  }

  /** From a start on any file, valid, damaged or missing, every interleaving keeps the invariant. */
  lemma EveryRunKeeps(file: Option<Request>, reading: Reading, quality: Quality, steps: seq<Step>)
    ensures Kept(Run(Boot(file, reading, quality), steps))
  {
    RunKeeps(Boot(file, reading, quality), steps);
  }

  lemma {:induction false} RunKeeps(sys: System, steps: seq<Step>)
    requires Kept(sys)
    ensures Kept(Run(sys, steps))
    decreases steps
  {
    hide Next, Kept;
    if steps != [] {
      StepKeeps(sys, steps[0]);
      RunKeeps(Next(sys, steps[0]), steps[1..]);
    }
  }

  /**
   In every reachable system a mark that succeeds leaves host and server agreed on the
   applied configuration, which is the newest accepted one; it fails only when a newer
   request has come in since the take, and that one is still pending.
   */
  lemma MarkedMeansAgreed(sys: System, engineActive: bool)
    requires Kept(sys) && sys.host.at == BeforeMark && Marks(sys.host, engineActive)
    ensures var next := Advanced(sys, engineActive);
            var marked := Mark(sys.server, sys.host.requestedRevision).1;
            && (marked ==>
                  && next.server.applied == next.server.requested == sys.server.requested
                  && next.host.appliedQuality == next.server.applied.quality
                  && next.host.appliedRevision == next.server.applied.revision)
            && (!marked <==> sys.host.requestedRevision < sys.server.requested.revision)
            && (!marked ==> sys.server.pendingAvailable)
  {
  }

  /** Once the startup reads are over, torn or not, the host's applied configuration is the server's. */
  lemma HostNeverRunsAhead(sys: System)
    requires Kept(sys) && sys.host.at.InLoop()
    ensures var s, h := sys.server, sys.host;
            && h.appliedRevision == s.applied.revision && h.appliedQuality == s.applied.quality
            && h.appliedRevision <= h.requestedRevision <= s.requested.revision
  {
  }

  /** Left alone with the engine idle, one turn of the loop applies the newest accepted request. */
  lemma UndisturbedTurnApplies(sys: System)
    requires Kept(sys) && sys.host.at == BeforeTake
    ensures var after := Advanced(Advanced(sys, false), false);
            && after.server.applied == after.server.requested == sys.server.requested
            && after.host.appliedRevision == after.host.requestedRevision == sys.server.requested.revision
            && after.host.appliedQuality == sys.server.requested.quality
            && !after.server.pendingAvailable && after.host.at == BeforeTake
  {
  }

  /** The answer to a request tells its fate: only an accepted one moves more than the rejections and the error. */
  lemma AnswersTellTheFate(s: Server, r: Request, persistence: Persistence)
    ensures var (next, response) := Handle(s, r, persistence);
            && (response.status == Accepted <==> Accepts(s, r, persistence))
            && (response.status == Invalid <==> !ValidRequest(r))
            && (response.status == StaleRevision <==> ValidRequest(r) && r.revision <= s.requested.revision)
            && (response.status == Accepted <==> next.requested.revision != s.requested.revision)
            && response.requestedRevision == r.revision && response.appliedRevision == s.applied.revision
            && response.error == next.lastError && next.applied == s.applied
            && (response.status == Accepted ==>
                  next.requested == r && next.pending == r && next.pendingAvailable && next.file == Some(r) &&
                  response.error == ERROR_SUCCESS && next.rejectedCount == s.rejectedCount)
            && (response.status != Accepted ==>
                  next == s.(lastError := response.error, rejectedCount := (s.rejectedCount + 1) % 0x1_0000_0000))
            && (response.status == Error && persistence.PersistFailed? ==> response.error == persistence.error)
  {
  }

  /** What a start found of its file shows in its state: a file that is missing is no error, any other trouble is. */
  lemma StartTellsWhatItRead(file: Option<Request>, reading: Reading, quality: Quality, revision: uint64)
    ensures var s := Started(file, reading, quality, revision);
            var missing := reading == CannotOpen(ERROR_FILE_NOT_FOUND) || (!reading.CannotOpen? && file.None?);
            && (Loads(file, reading) ==> s.requested == file.value)
            && (!Loads(file, reading) ==> s.requested.revision == revision && s.requested.quality == quality)
            && (Loads(file, reading) || missing ==> s.lastError == ERROR_SUCCESS)
            && (!Loads(file, reading) && !missing ==>
                  s.lastError == if reading.CannotOpen? then reading.error else ERROR_INVALID_DATA)
            && s.applied == s.requested && !s.pendingAvailable && s.rejectedCount == 0 && s.file == file
  {
  }

  /** While the engine runs, or with nothing new, the host marks nothing. */
  lemma MarksWaitForTheEngine(sys: System, engineActive: bool)
    requires sys.host.at == BeforeMark
    requires engineActive || sys.host.appliedRevision == sys.host.requestedRevision
    ensures Advanced(sys, engineActive) == sys.(host := sys.host.(at := BeforeTake))
  {
  }

  // ------------------------------------------------- order and restarts

  /** A restart reads the file, if there is a requested revision to lose. */
  ghost predicate LoadsItsFile(sys: System, step: Step) {
    match step
    case Restart(reading, _) => sys.server.requested.revision != 0 ==> reading.Reads?
    case DiesAfterPersisting(_, reading, _) => sys.server.requested.revision != 0 ==> reading.Reads?
    case _ => true
  }

  ghost predicate AlwaysLoads(sys: System, steps: seq<Step>)
    decreases steps
  {
    steps == [] || (LoadsItsFile(sys, steps[0]) && AlwaysLoads(Next(sys, steps[0]), steps[1..]))
  }

  /** The revisions answered with acceptance, in order, over all restarts. */
  function AcceptedRevisions(sys: System, steps: seq<Step>): seq<uint64>
    decreases steps
  {
    if steps == [] then []
    else
      (if steps[0].PipeRequest? && Accepts(sys.server, steps[0].request, steps[0].persistence)
       then [steps[0].request.revision] else []) +
      AcceptedRevisions(Next(sys, steps[0]), steps[1..])
  }

  /** A strictly rising sequence above `low` and up to `high`. */
  ghost predicate Rising(revisions: seq<uint64>, low: uint64, high: uint64) {
    && low <= high
    && (forall i :: 0 <= i < |revisions| ==> low < revisions[i] <= high)
    && (forall i, j :: 0 <= i < j < |revisions| ==> revisions[i] < revisions[j])
  }

  lemma RisingFromBelow(tail: seq<uint64>, low: uint64, middle: uint64, high: uint64)
    requires Rising(tail, middle, high) && low <= middle
    ensures Rising(tail, low, high) && (low < middle ==> Rising([middle] + tail, low, high))
  {
  }

  lemma AcceptedUnfolds(sys: System, steps: seq<Step>)
    requires steps != []
    ensures var tail := AcceptedRevisions(Next(sys, steps[0]), steps[1..]);
            AcceptedRevisions(sys, steps) ==
            if steps[0].PipeRequest? && Accepts(sys.server, steps[0].request, steps[0].persistence)
            then [steps[0].request.revision] + tail else tail
  {
    hide Next, Accepts;
    var tail := AcceptedRevisions(Next(sys, steps[0]), steps[1..]);
    assert [] + tail == tail;
  }

  lemma StepOrder(sys: System, step: Step)
    requires Kept(sys) && LoadsItsFile(sys, step)
    ensures Next(sys, step).server.requested.revision >= sys.server.requested.revision
    ensures step.PipeRequest? && Accepts(sys.server, step.request, step.persistence) ==>
              Next(sys, step).server.requested == step.request && step.request.revision > sys.server.requested.revision
  {
  }

  /** While restarts find their file, accepted revisions rise strictly and none is forgotten. */
  lemma {:induction false} AcceptedRevisionsRise(sys: System, steps: seq<Step>)
    requires Kept(sys) && AlwaysLoads(sys, steps)
    ensures Rising(AcceptedRevisions(sys, steps), sys.server.requested.revision,
                   Run(sys, steps).server.requested.revision)
    decreases steps
  {
    hide Next, Kept, LoadsItsFile, Accepts;
    if steps != [] {
      StepKeeps(sys, steps[0]);
      StepOrder(sys, steps[0]);
      AcceptedRevisionsRise(Next(sys, steps[0]), steps[1..]);
      var tail, high := AcceptedRevisions(Next(sys, steps[0]), steps[1..]), Run(sys, steps).server.requested.revision;
      var low, middle := sys.server.requested.revision, Next(sys, steps[0]).server.requested.revision;
      hide Rising, AcceptedRevisions;
      RisingFromBelow(tail, low, middle, high);
      AcceptedUnfolds(sys, steps);
    }
  }

  /** A restart keeps the newest accepted request exactly when it can read its file back, and then it is applied. */
  lemma RestartKeepsExactly(sys: System, reading: Reading, quality: Quality)
    requires Kept(sys) && sys.server.requested.revision != 0
    ensures var next := Next(sys, Restart(reading, quality)).server;
            && (next.requested == sys.server.requested <==> reading.Reads?)
            && (reading.Reads? ==> next.applied == sys.server.requested)
            && (!reading.Reads? ==> next.requested.revision == 0)
  {
  }

  /** And exactly then only newer requests are accepted afterwards; otherwise the oldest revision is accepted again. */
  lemma RestartKeepsOrderExactly(sys: System, reading: Reading, quality: Quality)
    requires Kept(sys) && sys.server.requested.revision != 0
    ensures var next := Next(sys, Restart(reading, quality)).server;
            (forall r :: Accepts(next, r, Persisted) ==> r.revision > sys.server.requested.revision) <==> reading.Reads?
  {
    var next := Next(sys, Restart(reading, quality)).server;
    RestartKeepsExactly(sys, reading, quality);
    if !reading.Reads? {
      assert Accepts(next, Blank(1, 0), Persisted);
    }
  }

  /** Such a trace from a fresh start: with its file unreadable once, an older revision follows a newer one. */
  lemma UnreadableFileForgets()
    ensures exists steps: seq<Step> :: AcceptedRevisions(Boot(None, Reads, 0), steps) == [2, 1]
  {
    var newer, older := Blank(2, 0), Blank(1, 0);
    var boot := Boot(None, Reads, 0);
    var steps := [PipeRequest(newer, Persisted), Restart(ReadsShort, 0), PipeRequest(older, Persisted)];
    var first := Next(boot, steps[0]);
    var second := Next(first, steps[1]);
    assert steps[1..] == [steps[1], steps[2]] && steps[1..][1..] == [steps[2]];
    assert AcceptedRevisions(second, [steps[2]]) == [1];
    assert AcceptedRevisions(first, [steps[1], steps[2]]) == [1];
    assert AcceptedRevisions(boot, steps) == [2, 1];
  }

  // --------------------------------------------------------------- in place

  class ConfigServer {
    var requested: Request
    var applied: Request
    var pending: Request
    var pendingAvailable: bool
    var rejectedCount: uint32
    var lastError: uint32
    var file: Option<Request> // stands for the file at the persistence path

    function View(): Server
      reads this
    {
      Server(requested, applied, pending, pendingAvailable, rejectedCount, lastError, file)
    }

    /** A server before its start, over the file as it is. */
    constructor (file: Option<Request>)
      ensures View() == Server(Blank(0, 0), Blank(0, 0), Blank(0, 0), false, 0, ERROR_SUCCESS, file)
    {
      this.file := file;
      requested, applied, pending := Blank(0, 0), Blank(0, 0), Blank(0, 0);
      pendingAvailable, rejectedCount, lastError := false, 0, ERROR_SUCCESS;
    }

    /** A default quality that is none of the three is refused. */
    method Start(quality: uint32, revision: uint64, reading: Reading) returns (ok: bool)
      modifies this
      ensures ok <==> quality <= LOWEST_QUALITY
      ensures View() == if ok then Started(old(file), reading, quality, revision) else old(View())
    {
      if quality > LOWEST_QUALITY {
        return false;
      }
      requested := Blank(revision, quality);
      applied := requested;
      pending := Blank(0, 0);
      pendingAvailable := false;
      rejectedCount := 0;
      lastError := ERROR_SUCCESS;
      var loaded, error := LoadPersisted(reading);
      if !loaded && error != ERROR_FILE_NOT_FOUND {
        lastError := error;
      }
      return true;
    }

    method LoadPersisted(reading: Reading) returns (ok: bool, error: uint32)
      modifies this`requested, this`applied
      ensures (ok <==> Loads(file, reading)) && error == LoadError(file, reading)
      ensures ok ==> View() == old(View()).(requested := file.value, applied := file.value)
      ensures !ok ==> View() == old(View())
    {
      if reading.CannotOpen? {
        return false, reading.error;
      }
      if file.None? {
        return false, ERROR_FILE_NOT_FOUND;
      }
      if reading.ReadsShort? || !ValidRequest(file.value) {
        return false, ERROR_INVALID_DATA;
      }
      requested := file.value;
      applied := file.value;
      return true, ERROR_SUCCESS;
    }

    /** A failed write leaves the old file in place: the new one is written beside it and renamed. */
    method Persist(request: Request, persistence: Persistence) returns (ok: bool)
      modifies this`file
      ensures ok == persistence.Persisted?
      ensures file == if ok then Some(request) else old(file)
    {
      if persistence.PersistFailed? {
        return false;
      }
      file := Some(request);
      return true;
    }

    method HandleRequest(request: Request, persistence: Persistence) returns (response: Response)
      modifies this
      ensures View() == Handle(old(View()), request, persistence).0
      ensures response == Handle(old(View()), request, persistence).1
    {
      var status, error := Error, ERROR_SUCCESS;
      var appliedRevision := applied.revision;
      if !ValidRequest(request) {
        status, error := Invalid, ERROR_INVALID_DATA;
      } else if request.revision <= requested.revision {
        status, error := StaleRevision, ERROR_REVISION_MISMATCH;
      } else {
        var ok := Persist(request, persistence);
        if !ok {
          error := persistence.error;
        } else {
          requested := request;
          pending := request;
          pendingAvailable := true;
          status := Accepted;
        }
      }
      if status != Accepted {
        rejectedCount := (rejectedCount + 1) % 0x1_0000_0000;
      }
      lastError := error;
      return Response(status, request.revision, appliedRevision, error);
    }

    method TakeAccepted() returns (accepted: Option<Request>)
      modifies this`pendingAvailable
      ensures View() == Take(old(View())).0 && accepted == Take(old(View())).1
    {
      if !pendingAvailable {
        return None;
      }
      accepted := Some(pending);
      pendingAvailable := false;
    }

    method MarkApplied(revision: uint64) returns (ok: bool)
      modifies this`applied
      ensures View() == Mark(old(View()), revision).0 && ok == Mark(old(View()), revision).1
    {
      if revision != requested.revision {
        return false;
      }
      applied := requested;
      return true;
    }
  }

  class ConfigHost {
    var at: HostAt
    var requestedQuality: uint32
    var requestedRevision: uint64
    var appliedQuality: uint32
    var appliedRevision: uint64

    function View(): Host
      reads this
    {
      Host(at, requestedQuality, requestedRevision, appliedQuality, appliedRevision)
    }

    constructor ()
      ensures View() == NEW_HOST
    {
      at, requestedQuality, requestedRevision, appliedQuality, appliedRevision := ReadRequestedQuality, 0, 0, 0, 0;
    }

    /** The host up to the end of its next locked section. */
    method Move(server: ConfigServer, engineActive: bool)
      modifies this, server
      ensures System(server.View(), View()) == Advanced(old(System(server.View(), View())), engineActive)
    {
      match at {
        case ReadRequestedQuality =>
          requestedQuality := server.requested.quality;
          at := ReadAppliedQuality;
        case ReadAppliedQuality =>
          appliedQuality := server.applied.quality;
          at := ReadRequestedRevision;
        case ReadRequestedRevision =>
          requestedRevision := server.requested.revision;
          at := ReadAppliedRevision;
        case ReadAppliedRevision =>
          appliedRevision := server.applied.revision;
          at := BeforeTake;
        case BeforeTake =>
          var accepted := server.TakeAccepted();
          if accepted.Some? {
            requestedQuality := accepted.value.quality;
            requestedRevision := accepted.value.revision;
          }
          at := BeforeMark;
        case BeforeMark =>
          if !engineActive && appliedRevision != requestedRevision {
            var ok := server.MarkApplied(requestedRevision);
            if ok {
              appliedQuality := requestedQuality;
              appliedRevision := requestedRevision;
            }
          }
          at := BeforeTake;
      }
    }
  }
}
